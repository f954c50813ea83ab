/** The reflective metadata that the engine reads from the JVM, made explicit:
    types with their primitive/boxed pairing, declared fields and methods, the
    `@TemplateEntity` annotation with its `@Template` entries, and the runtime
    values the engine moves between objects. */
module Reflect {
  import opened Wrappers

  /** The eight primitive types of Java, and `void`. */
  datatype Prim = Boolean | Byte | Char | Short | Int | Long | Float | Double | Void

  /** A field, return or parameter type as the engine compares it (erased:
      type arguments are invisible to `Field.getType()`). */
  datatype Type = Primitive(kind: Prim) | Class(name: string)

  /** The boxed class of a primitive type. */
  function BoxName(k: Prim): string
  {
    match k
    case Boolean => "java.lang.Boolean"
    case Byte => "java.lang.Byte"
    case Char => "java.lang.Character"
    case Short => "java.lang.Short"
    case Int => "java.lang.Integer"
    case Long => "java.lang.Long"
    case Float => "java.lang.Float"
    case Double => "java.lang.Double"
    case Void => "java.lang.Void"
  }

  /** Primitive-to-boxed wrapping, applied only to primitive types. */
  function Wrap(t: Type): Type
  {
    match t
    case Primitive(k) => Class(BoxName(k))
    case Class(_) => t
  }

  /** A declared field: name and (erased) type. */
  datatype FieldDecl = FieldDecl(name: string, ty: Type)

  /** A declared method: name, return type and parameter types in order. */
  datatype MethodDecl = MethodDecl(name: string, ret: Type, params: seq<Type>)

  /** One `@Template` entry: a name and the field names it restricts population to. */
  datatype Template = Template(name: string, fields: seq<string>)

  /** A class as the engine sees it:
      - `supers`: the names of its proper supertypes (for assignability);
      - `fields`, `methods`: its own declared members, in declaration order;
      - `entity`: `Some(templates)` when the class carries `@TemplateEntity`
        (the template list defaults to empty), `None` otherwise;
      - `ctor`: the state a no-argument construction yields, or `None` when
        construction fails. */
  datatype ClassDecl = ClassDecl(
    name: string,
    supers: set<string>,
    fields: seq<FieldDecl>,
    methods: seq<MethodDecl>,
    entity: Option<seq<Template>>,
    ctor: Option<map<string, Value>>)

  /** A runtime value: `null`, a value of a class whose content the engine never
      inspects (a string, a boxed number; `text` is its printed form), or an
      object with field values. */
  datatype Value = Null | Lit(cls: ClassDecl, text: string) | Ref(obj: Obj)

  /** An object: its runtime class and the values of its fields. A declared field
      missing from `state` holds the default value of its type. */
  datatype Obj = Obj(cls: ClassDecl, state: map<string, Value>)

  /** Entries of the caller's parameter list are objects: they have a runtime class. */
  type Param = v: Value | !v.Null? witness Lit(ClassDecl("java.lang.Object", {}, [], [], None, None), "")

  /** A boxed class: declares nothing the engine uses. */
  function BoxClass(k: Prim): ClassDecl
  {
    ClassDecl(BoxName(k), {"java.lang.Object", "java.io.Serializable"}, [], [], None, None)
  }

  /** The value a field of type `t` holds before anything is written to it, as
      `Field.get` returns it (primitives boxed). */
  function DefaultOf(t: Type): Value
  {
    match t
    case Class(_) => Null
    case Primitive(Boolean) => Lit(BoxClass(Boolean), "false")
    case Primitive(Float) => Lit(BoxClass(Float), "0.0")
    case Primitive(Double) => Lit(BoxClass(Double), "0.0")
    case Primitive(Char) => Lit(BoxClass(Char), "\0")
    case Primitive(Void) => Null
    case Primitive(k) => Lit(BoxClass(k), "0")
  }

  /** `getClass()` of a non-null value. */
  function ClassOf(v: Value): ClassDecl
    requires !v.Null?
  {
    match v
    case Lit(c, _) => c
    case Ref(o) => o.cls
  }

  /** `Field.get` of a declared field of a non-null value. */
  function Read(v: Value, f: FieldDecl): Value
    requires !v.Null?
  {
    if v.Ref? && f.name in v.obj.state then v.obj.state[f.name] else DefaultOf(f.ty)
  }

  /** `getDeclaredField(name)`: the declared field of that name, if any. */
  function FindField(fs: seq<FieldDecl>, name: string): (r: Option<FieldDecl>)
    ensures r.Some? ==> r.value in fs && r.value.name == name
    ensures r.None? <==> forall i :: 0 <= i < |fs| ==> fs[i].name != name
  {
    if fs == [] then None
    else if fs[0].name == name then Some(fs[0])
    else FindField(fs[1..], name)
  }

  function DeclaredField(c: ClassDecl, name: string): Option<FieldDecl>
  {
    FindField(c.fields, name)
  }

  /** `slot.isAssignableFrom(getClass())` for a non-null value: never for a
      primitive slot, since a runtime class is never primitive. */
  predicate Assignable(slot: Type, v: Value)
    requires !v.Null?
  {
    slot.Class? && (slot.name == ClassOf(v).name || slot.name in ClassOf(v).supers)
  }

  /** ASCII case folding. */
  function Lower(c: char): char
  {
    if 'A' <= c <= 'Z' then (c as int + 32) as char else c
  }

  /** `a.equalsIgnoreCase(b)`, with `b` possibly null (then false). */
  predicate EqualsIgnoreCase(a: string, b: Option<string>)
  {
    b.Some? && |a| == |b.value| && forall i :: 0 <= i < |a| ==> Lower(a[i]) == Lower(b.value[i])
  }
}
