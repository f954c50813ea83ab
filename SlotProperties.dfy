/** Argument-slot filling: type-based, not positional. */
module SlotProperties {
  import opened Wrappers
  import opened Reflect
  import opened Resolution

  /** A method is disqualified exactly when one of its parameters is primitive:
      no parameter's runtime class is primitive, so such a slot is never filled. */
  lemma DisqualifiedIffPrimitiveSlot(slots: seq<Type>, ps: seq<Param>)
    ensures Slots(slots, ps).None? <==> exists i :: 0 <= i < |slots| && slots[i].Primitive?
  {
  }

  /** Hence a candidate method with a primitive parameter is never invoked. */
  lemma PrimitiveParameterNeverInvoked(m: MethodDecl, data: Value, ctx: Ctx, i: nat)
    requires i < |m.params| && m.params[i].Primitive?
    ensures Invoke(m, data, ctx).None?
  {
    DisqualifiedIffPrimitiveSlot(m.params, ctx.params);
  }

  /** What each slot of a qualified method receives: the first parameter, in
      list order, assignable to it; null when there is none. */
  lemma SlotsMeaning(slots: seq<Type>, ps: seq<Param>, i: nat)
    requires Slots(slots, ps).Some? && i < |slots|
    ensures |Slots(slots, ps).value| == |slots|
    ensures var a := Slots(slots, ps).value[i];
            (a.Null? && slots[i].Class? && forall j :: 0 <= j < |ps| ==> !Assignable(slots[i], ps[j])) ||
            (exists j :: 0 <= j < |ps| && a == ps[j] && Assignable(slots[i], ps[j]) &&
                         forall k :: 0 <= k < j ==> !Assignable(slots[i], ps[k]))
  {
  }

  /** Leading parameters a slot does not accept are passed over. */
  lemma {:induction false} SkipExtra(slot: Type, extra: seq<Param>, after: seq<Param>)
    requires forall x :: x in extra ==> !Assignable(slot, x)
    ensures FirstAssignable(slot, extra + after) == FirstAssignable(slot, after)
  {
    if extra == [] {
      assert extra + after == after;
    } else {
      var xs := extra + after;
      assert xs[0] == extra[0] && xs[1..] == extra[1..] + after;
      assert extra[0] in extra;
      SkipExtra(slot, extra[1..], after);
    }
  }

  /** Parameters no slot accepts make no difference, wherever they stand. */
  lemma {:induction false} FirstAssignableSkipsUnrelated(slot: Type, before: seq<Param>, extra: seq<Param>, after: seq<Param>)
    requires forall x :: x in extra ==> !Assignable(slot, x)
    ensures FirstAssignable(slot, before + extra + after) == FirstAssignable(slot, before + after)
  {
    if before == [] {
      assert before + extra + after == extra + after && before + after == after;
      SkipExtra(slot, extra, after);
    } else {
      var xs, ys := before + extra + after, before + after;
      assert xs[0] == before[0] && xs[1..] == before[1..] + extra + after;
      assert ys[0] == before[0] && ys[1..] == before[1..] + after;
      FirstAssignableSkipsUnrelated(slot, before[1..], extra, after);
    }
  }

  /** Two parameter lists that fill every slot alike give the same arguments. */
  lemma SlotsAgree(slots: seq<Type>, ps: seq<Param>, qs: seq<Param>)
    requires forall i :: 0 <= i < |slots| ==> FirstAssignable(slots[i], ps) == FirstAssignable(slots[i], qs)
    ensures Slots(slots, ps) == Slots(slots, qs)
  {
    assert Disqualified(slots, ps) == Disqualified(slots, qs);
    if !Disqualified(slots, ps) {
      var a, b := Slots(slots, ps).value, Slots(slots, qs).value;
      assert |a| == |b|;
      forall i | 0 <= i < |a| ensures a[i] == b[i] {
        assert SlotValue(slots[i], ps) == SlotValue(slots[i], qs);
      }
      assert a == b;
    }
  }

  /** Supplying extra parameters of unrelated types does not change the arguments. */
  lemma SlotsIgnoreUnrelated(slots: seq<Type>, before: seq<Param>, extra: seq<Param>, after: seq<Param>)
    requires forall i, x :: 0 <= i < |slots| && x in extra ==> !Assignable(slots[i], x)
    ensures Slots(slots, before + extra + after) == Slots(slots, before + after)
  {
    forall i | 0 <= i < |slots|
      ensures FirstAssignable(slots[i], before + extra + after) == FirstAssignable(slots[i], before + after)
    {
      FirstAssignableSkipsUnrelated(slots[i], before, extra, after);
    }
    SlotsAgree(slots, before + extra + after, before + after);
  }

  /** At most one value in the list can fill this slot. */
  predicate Unambiguous(slot: Type, ps: seq<Param>)
  {
    forall j, k :: 0 <= j < |ps| && 0 <= k < |ps| && Assignable(slot, ps[j]) && Assignable(slot, ps[k]) ==> ps[j] == ps[k]
  }

  lemma FirstAssignableOrderFree(slot: Type, ps: seq<Param>, qs: seq<Param>)
    requires multiset(ps) == multiset(qs)
    requires Unambiguous(slot, ps)
    ensures FirstAssignable(slot, ps) == FirstAssignable(slot, qs)
  {
    var r, s := FirstAssignable(slot, ps), FirstAssignable(slot, qs);
    if r.Some? {
      var j :| 0 <= j < |ps| && ps[j] == r.value && Assignable(slot, ps[j]);
      assert ps[j] in multiset(qs);
      assert s.Some?;
    }
    if s.Some? {
      var k :| 0 <= k < |qs| && qs[k] == s.value && Assignable(slot, qs[k]);
      assert qs[k] in multiset(ps);
      var j :| 0 <= j < |ps| && ps[j] == qs[k];
      assert r.Some?;
      var j' :| 0 <= j' < |ps| && ps[j'] == r.value && Assignable(slot, ps[j']);
    }
  }

  /** When every slot has at most one candidate parameter, the order of the
      parameter list does not matter (reversed, or any other permutation). */
  lemma SlotsOrderFree(slots: seq<Type>, ps: seq<Param>, qs: seq<Param>)
    requires multiset(ps) == multiset(qs)
    requires forall i :: 0 <= i < |slots| ==> Unambiguous(slots[i], ps)
    ensures Slots(slots, ps) == Slots(slots, qs)
  {
    forall i | 0 <= i < |slots|
      ensures FirstAssignable(slots[i], ps) == FirstAssignable(slots[i], qs)
    {
      FirstAssignableOrderFree(slots[i], ps, qs);
    }
    SlotsAgree(slots, ps, qs);
  }
}
