/** The primitive/boxed equivalence of the direct copy. */
module TypeProperties {
  import opened Wrappers
  import opened Reflect
  import opened Resolution

  /** Two types the direct copy treats as the same: equal, or a primitive and its box. */
  predicate SameAfterBoxing(a: Type, b: Type)
  {
    a == b || (a.Primitive? && b == Class(BoxName(a.kind))) || (b.Primitive? && a == Class(BoxName(b.kind)))
  }

  lemma BoxNamesDistinct(k1: Prim, k2: Prim)
    ensures BoxName(k1) == BoxName(k2) ==> k1 == k2
  {
    var n1, n2 := BoxName(k1), BoxName(k2);
    if k1 != k2 {
      // the box names differ at some position
      assert n1 != n2 by {
        match k1
        case Boolean => assert n1[10] == 'B';
        case Byte => assert n1[10..14] == "Byte";
        case Char => assert n1[10] == 'C';
        case Short => assert n1[10] == 'S';
        case Int => assert n1[10] == 'I';
        case Long => assert n1[10] == 'L';
        case Float => assert n1[10] == 'F';
        case Double => assert n1[10] == 'D';
        case Void => assert n1[10] == 'V';
      }
    }
  }

  /** Wrapping makes exactly the primitive/boxed pairs equal. */
  lemma WrapEqualIff(a: Type, b: Type)
    ensures Wrap(a) == Wrap(b) <==> SameAfterBoxing(a, b)
  {
    if a.Primitive? && b.Primitive? {
      BoxNamesDistinct(a.kind, b.kind);
    }
  }

  /** A field never written holds its type's default, as `Field.get` returns it:
      null for a reference type, otherwise a value of the primitive's box class,
      so never null for a primitive field. */
  lemma DefaultValueBoxed(t: Type)
    ensures DefaultOf(t).Null? <==> t.Class? || t.kind == Void
    ensures !DefaultOf(t).Null? ==> ClassOf(DefaultOf(t)) == BoxClass(t.kind) && Wrap(t).name == ClassOf(DefaultOf(t)).name
  {
  }

  /** Direct copy applies exactly when the source declares a same-named field
      whose type is the destination's, up to boxing. It then copies the value
      as is, unless that value is null and the destination field primitive,
      which throws. */
  lemma ByCopyApplies(f: FieldDecl, data: Value)
    requires !data.Null?
    ensures var sf := DeclaredField(ClassOf(data), f.name);
            !ByCopy(f, data).Keep? <==> sf.Some? && SameAfterBoxing(f.ty, sf.value.ty)
    ensures var sf := DeclaredField(ClassOf(data), f.name);
            ByCopy(f, data).Throw? <==>
              sf.Some? && SameAfterBoxing(f.ty, sf.value.ty) && f.ty.Primitive? && Read(data, sf.value).Null?
    ensures ByCopy(f, data).Throw? ==> ByCopy(f, data).failure == NullToPrimitive(f.name)
    ensures var sf := DeclaredField(ClassOf(data), f.name);
            ByCopy(f, data).Assign? ==> ByCopy(f, data).v == Read(data, sf.value)
  {
    var sf := DeclaredField(ClassOf(data), f.name);
    if sf.Some? {
      WrapEqualIff(f.ty, sf.value.ty);
    }
  }
}
