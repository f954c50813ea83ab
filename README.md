# template-data: the field-population engine, modelled in Dafny

`TemplateData` fills the fields of a destination object from an arbitrary source object by
matching names. A call may be scoped by a named template and may carry a parameter list.
The template is declared on the destination class with `@TemplateEntity(@Template(name, fields))`.
The parameter list supplies the arguments of source methods.

This project models that engine and proves what it promises:

- **Template resolution.** With no template name, every declared destination field is attempted.
  With a name, the attempts are the field list of the first template whose name matches
  ignoring case. A name that matches nothing attempts nothing.
- **Field resolution.** For each attempted field, three strategies are tried in a fixed order:
  1. the first source method named `f` or `_f` whose return type is exactly the field's type and
     whose invocation succeeds. Its argument slots are filled from the parameter list by the
     first assignable parameter. An unmatched reference slot gets null; an unmatched primitive
     slot disqualifies the method.
  2. a direct copy of a same-named source field whose type is the same after primitive→boxed
     wrapping.
  3. a fresh instance of a `@TemplateEntity` field type, populated recursively from the
     same-named source field under the same template name and parameters.
- **Entry points.** `create`, `createList` and `fill`, each with and without a template name.

## Layout

- `Wrappers.dfy`: `Option` and `Result`.
- `Reflect.dfy`: the reflective metadata made explicit. It holds the types and the `Wrap`
  table, declared fields and methods, templates and the `@TemplateEntity` annotation
  (`ClassDecl.entity`, whose template list defaults to empty), runtime values and objects,
  `getDeclaredField`, `isAssignableFrom` and `equalsIgnoreCase`.
- `Resolution.dfy`: the engine as functions of its inputs. These are template matching, the
  attempt list, slot filling, the three strategies, one population run, `create` and
  `createList`. Nested recursion is bounded by a fuel argument.
- `TemplateData.dfy`: the imperative engine. `Instance` is a destination object whose field map
  `populate`/`addField` update in place. The methods include the template search loop, the
  labelled slot-filling loop over an array, and the list-building loop of `createList`.
  Each method is proved to compute the corresponding function of `Resolution`.
- `TypeProperties.dfy`, `TemplateProperties.dfy`, `SlotProperties.dfy`, `ChainProperties.dfy`,
  `RunProperties.dfy`, `EntryProperties.dfy`: the properties, as lemmas.
- `Scenarios.dfy`: fixtures of the library's own tests, as values, with the results the
  engine gives for them.

What the engine cannot see becomes a parameter (`Resolution.World`). `reg` maps class names
to declarations; a class missing from it carries no `@TemplateEntity`. `call` gives what
invoking a method returns, or `None` when the invocation fails.

The exceptions that escape the engine are the `Failure` values:
- `NullSource`: `getClass()` on a null source;
- `Instantiation`: a failed no-argument construction;
- `NullToPrimitive`: the direct copy of a null into a primitive field, which `Field.set`
  refuses with an `IllegalArgumentException` that nothing catches;
- `DepthExhausted`: the fuel, which stands in for the call stack, ran out.

`EntryProperties.RunFuel` and the lemmas beside it prove that the fuel only bounds the
recursion. A result that does not report exhausted depth is the result that any larger fuel
gives.

The library's tests expect destination-side methods and per-field renames through the
`@Property` annotation (`src/main/java/com/molnmyra/Property.java`). `TemplateData.java`
implements neither: it never reads `Property` and never scans destination methods. The model
follows the code. So the assertions at `src/test/java/com/molnmyra/TemplateDataTest.java:62-63`,
`:70-72` and `:100-102` expect behaviour that this code does not have. At `:100`, `Source3`
declares no `source2s`, so that field stays null. The rest of those tests agree with the code:
`:60`, `:61` and `:64`, and `:104-109`. `myIntegers` has no same-named source field and stays
null. `myBooleans` is copied, because its erased type `List` equals the source field's.

## Model

| member | source | states |
|---|---|---|
| `Reflect.FindField` | src/main/java/com/molnmyra/TemplateData.java:106 | `getDeclaredField`: the field found is declared and has the requested name; none is found exactly when no declared field has that name |
| `Resolution.MatchTemplate` | src/main/java/com/molnmyra/TemplateData.java:26-33 | the field list of the first template whose name equals the requested one ignoring case; none exactly when no template matches, including when no name is given (`equalsIgnoreCase(null)` is false) |
| `TemplateData.FindTemplateFields` | src/main/java/com/molnmyra/TemplateData.java:24-34 | the search loop with `break` computes the matched template's field list, or null |
| `TemplateProperties.NullTemplateAttemptsEveryField` | src/main/java/com/molnmyra/TemplateData.java:44-47 | without a template name, every declared destination field is attempted, in declaration order |
| `TemplateProperties.MatchedTemplateAttemptsListed` | src/main/java/com/molnmyra/TemplateData.java:36-43 | with a name, exactly the names of the first matching template are attempted, in listed order; each is looked up among the declared fields |
| `TemplateProperties.UnmatchedTemplateChangesNothing` | src/main/java/com/molnmyra/TemplateData.java:24-48 | a name that no template matches (including on a destination without `@TemplateEntity`) leaves the destination unchanged and throws nothing |
| `TemplateProperties.UnmatchedTemplateCreatesDefault` | src/main/java/com/molnmyra/TemplateData.java:142-150 | so `create` under such a name yields exactly a freshly constructed object, or the construction failure |
| `TemplateProperties.TemplateNameIgnoresCase` | src/main/java/com/molnmyra/TemplateData.java:29 | template names that differ only in letter case select the same field list |
| `Resolution.Attempts` | src/main/java/com/molnmyra/TemplateData.java:24-48 | the fields `populate` attempts, in order: the declared lookup of each listed name under a matched template, every declared field without a name, nothing otherwise; its meaning is proved in the `TemplateProperties` rows |
| `Resolution.TemplateFields` | src/main/java/com/molnmyra/TemplateData.java:24-34 | the `fields` variable of `populate`: the matched template's list when the class carries `@TemplateEntity` (`closures != null`), otherwise null; characterised by `TemplateProperties.MatchedTemplateAttemptsListed` and `UnmatchedTemplateChangesNothing`, and `TemplateData.FindTemplateFields` computes it |
| `Resolution.Step` | src/main/java/com/molnmyra/TemplateData.java:37-55 | one attempt: a listed name the class does not declare is skipped (the caught `NoSuchFieldException`), and a null source throws (`data.getClass()` at lines 41 and 55); characterised by `RunProperties.UndeclaredNameSkipped` and `NullSourceThrows`, and `TemplateData.AddField` computes it |
| `Resolution.Run` | src/main/java/com/molnmyra/TemplateData.java:37-47 | the population loop: each attempt in turn, writing the field it resolves and stopping at the first escaping exception; proved about in the `RunProperties` rows, and `TemplateData.Populate` computes it |
| `Resolution.Populated` | src/main/java/com/molnmyra/TemplateData.java:24-48 | `populate` as a whole: the run over the attempt list; `TemplateData.Populate` computes it in place |
| `Resolution.Resolve` | src/main/java/com/molnmyra/TemplateData.java:51-136 | `addField`: strategy 1, then 2, then 3, the first that yields a value or an exception deciding; its meaning is proved in the `ChainProperties` rows, and `TemplateData.AddField` computes it |
| `Resolution.Candidate` | src/main/java/com/molnmyra/TemplateData.java:56 | the test a method must pass to qualify: named `f` or `_f`, with exactly the field's type as return type; characterised by `ChainProperties.BoxedReturnDoesNotQualify` and `FirstSucceedingMethodWins` |
| `Resolution.Invoke` | src/main/java/com/molnmyra/TemplateData.java:57-100 | the two invocation branches: with arguments from the parameter list when the method has parameters, not at all when it is disqualified, with none otherwise; characterised by `SlotProperties.PrimitiveParameterNeverInvoked`, and `TemplateData.InvokeCandidates` computes it |
| `Resolution.ByCopy` | src/main/java/com/molnmyra/TemplateData.java:105-113 | strategy 2, the direct copy; characterised by `TypeProperties.ByCopyApplies` |
| `Resolution.ByNesting` | src/main/java/com/molnmyra/TemplateData.java:120-133 | strategy 3, the nested entity; characterised by `ChainProperties.NestedUnderSameTemplate`, `NestedWithoutSourceField`, and, for its two throwing branches, `NestedConstructionFailureThrows` and `NestedFailureEscapes`; `TemplateData.AddNested` computes it |
| `Resolution.EntityClass` | src/main/java/com/molnmyra/TemplateData.java:121 | the field's type when it is a class carrying `@TemplateEntity`; used by the nested-strategy lemmas of `ChainProperties` |
| `Resolution.Created` | src/main/java/com/molnmyra/TemplateData.java:142-150 | `create`: construct, then populate, or fail with the construction failure or the exception that escapes; `TemplateData.Create` computes it |
| `Resolution.CreatedList` | src/main/java/com/molnmyra/TemplateData.java:156-162 | `createList`: `create` of each element in order, failing at the first failure; characterised by `EntryProperties.CreatedListElementwise` |
| `Resolution.Slots` | src/main/java/com/molnmyra/TemplateData.java:62-75 | the argument list of a candidate method, or none when a primitive slot has no assignable parameter; characterised by the `SlotProperties` rows, and `TemplateData.FillSlots` computes it |
| `Resolution.Disqualified` | src/main/java/com/molnmyra/TemplateData.java:70-71 | some primitive slot has no assignable parameter; characterised by `SlotProperties.DisqualifiedIffPrimitiveSlot` |
| `Resolution.SlotValue` | src/main/java/com/molnmyra/TemplateData.java:62-75 | one argument: the first assignable parameter, else null; characterised by `SlotProperties.SlotsMeaning` |
| `Reflect.Read` | src/main/java/com/molnmyra/TemplateData.java:111 | `Field.get`: the stored value of the field, or its type's default when nothing was written to it; characterised by `TypeProperties.ByCopyApplies` (the value copied) |
| `Reflect.DefaultOf` | src/main/java/com/molnmyra/TemplateData.java:125 | the value `Field.get` returns for a field never written; characterised by `TypeProperties.DefaultValueBoxed` |
| `TypeProperties.DefaultValueBoxed` | src/main/java/com/molnmyra/TemplateData.java:111 | a field never written reads as null exactly when its type is a reference type; a primitive field reads as a value of its box class, never null |
| `Reflect.Wrap` | src/main/java/com/molnmyra/TemplateData.java:107-108 | `Primitives.wrap` applied to primitive types only; characterised by `TypeProperties.WrapEqualIff` |
| `Reflect.EqualsIgnoreCase` | src/main/java/com/molnmyra/TemplateData.java:29 | `equalsIgnoreCase`, false against a null name; used by `Resolution.MatchTemplate` and `TemplateProperties.TemplateNameIgnoresCase` |
| `Reflect.Assignable` | src/main/java/com/molnmyra/TemplateData.java:65 | `isAssignableFrom` on a parameter's runtime class, never true for a primitive slot; used by `Resolution.FirstAssignable` and `SlotProperties.DisqualifiedIffPrimitiveSlot` |
| `Resolution.FirstAssignable` | src/main/java/com/molnmyra/TemplateData.java:64-69 | a slot receives the first parameter, in list order, whose runtime class is assignable to it; none exactly when no parameter is assignable |
| `TemplateData.FillSlots` | src/main/java/com/molnmyra/TemplateData.java:57-75 | the labelled `outer` loop over the `invokeParams` array: `methodOk` stays true exactly when the method is not disqualified, and then the arguments are the specified slot values |
| `SlotProperties.DisqualifiedIffPrimitiveSlot` | src/main/java/com/molnmyra/TemplateData.java:70-74 | a method is disqualified exactly when one of its parameters is primitive, since no runtime class is primitive |
| `SlotProperties.PrimitiveParameterNeverInvoked` | src/main/java/com/molnmyra/TemplateData.java:57-77 | a candidate with a primitive parameter is never invoked |
| `SlotProperties.SlotsMeaning` | src/main/java/com/molnmyra/TemplateData.java:62-75 | each argument of a qualified method is either the first assignable parameter, or null for a reference slot that no parameter fits |
| `SlotProperties.FirstAssignableSkipsUnrelated` | src/main/java/com/molnmyra/TemplateData.java:64-69 | parameters a slot does not accept, inserted anywhere in the list, do not change what it receives |
| `SlotProperties.SlotsIgnoreUnrelated` | src/main/java/com/molnmyra/TemplateData.java:62-75 | supplying extra parameters of types no slot accepts leaves the argument list unchanged |
| `SlotProperties.FirstAssignableOrderFree` | src/main/java/com/molnmyra/TemplateData.java:64-69 | when at most one value can fill a slot, any permutation of the parameter list fills it alike |
| `SlotProperties.SlotsOrderFree` | src/main/java/com/molnmyra/TemplateData.java:62-75 | when every slot has at most one candidate parameter, reordering the parameter list (reversing it, say) yields the same arguments |
| `Resolution.ByMethod` | src/main/java/com/molnmyra/TemplateData.java:55-102 | strategy 1 yields the result of the first method in declaration order that is a candidate and whose invocation succeeds; nothing exactly when no candidate succeeds |
| `ChainProperties.FirstSucceedingMethodWins` | src/main/java/com/molnmyra/TemplateData.java:55-113 | the first succeeding candidate gives the field its value, ahead of a same-named source field of matching type; earlier failed invocations do not stop the scan |
| `ChainProperties.BoxedReturnDoesNotQualify` | src/main/java/com/molnmyra/TemplateData.java:56 | return types are compared exactly: a boxed return type does not qualify for a primitive field |
| `TypeProperties.WrapEqualIff` | src/main/java/com/molnmyra/TemplateData.java:107-109 | two types are equal after wrapping exactly when they are equal or are a primitive and its box |
| `TypeProperties.ByCopyApplies` | src/main/java/com/molnmyra/TemplateData.java:105-113 | the direct copy applies exactly when the source declares a same-named field whose type matches up to boxing; it throws `NullToPrimitive` exactly when that value is null and the destination field primitive, and otherwise copies the value unchanged |
| `ChainProperties.CopyAfterFailedMethods` | src/main/java/com/molnmyra/TemplateData.java:84-113 | when no candidate method succeeds, a same-named field matching up to boxing is copied (`int` into `Integer`, `boolean` into `Boolean` and back), unless it is a null going into a primitive field |
| `ChainProperties.NullIntoPrimitiveThrows` | src/main/java/com/molnmyra/TemplateData.java:105-118 | in that last case `Field.set` throws, and the exception escapes the attempt: the `catch` clauses at lines 114-118 do not catch it |
| `ChainProperties.UnresolvedNonEntityKept` | src/main/java/com/molnmyra/TemplateData.java:104-135 | a field no method or copy resolves, whose type is not an entity, is left as it was |
| `ChainProperties.NestedUnderSameTemplate` | src/main/java/com/molnmyra/TemplateData.java:121-127 | otherwise an entity-typed field receives a fresh instance, populated from the same-named source field under the same template name and parameters |
| `ChainProperties.NestedConstructionFailureThrows` | src/main/java/com/molnmyra/TemplateData.java:121-129 | when neither earlier strategy applies and the entity class cannot be constructed, `newInstance` fails and the failure is rethrown, whether or not the source has a same-named field |
| `ChainProperties.NestedFailureEscapes` | src/main/java/com/molnmyra/TemplateData.java:121-132 | an exception that escapes the nested `populate` (a null source sub-object, a null copied into a primitive field, a deeper construction failure) escapes the field's attempt: the `catch` clauses at lines 128-132 do not catch it |
| `ChainProperties.NestedWithoutSourceField` | src/main/java/com/molnmyra/TemplateData.java:121-132 | without a same-named source field the nested strategy leaves the field unassigned; the instance is constructed first, so a construction failure is thrown, not swallowed |
| `ChainProperties.NestedRestrictedByTemplate` | src/main/java/com/molnmyra/TemplateData.java:125 | under a template name the nested instance gets only the fields its own class lists under that name; the others keep their constructed values |
| `TemplateData.Instance.constructor` | src/main/java/com/molnmyra/TemplateData.java:144 | a no-argument construction yields an object of class `c` in state `init` |
| `TemplateData.Populate` | src/main/java/com/molnmyra/TemplateData.java:23-49 | updates the destination in place to exactly the specified population run, and reports the exception that ends it |
| `TemplateData.InvokeCandidates` | src/main/java/com/molnmyra/TemplateData.java:55-102 | the method scan returns exactly what strategy 1 specifies: the result of the first candidate whose invocation succeeds, or nothing |
| `TemplateData.AddNested` | src/main/java/com/molnmyra/TemplateData.java:120-133 | the entity strategy: writes the nested instance exactly as strategy 3 specifies, or throws its instantiation or nested failure, or leaves the destination unchanged |
| `TemplateData.AddField` | src/main/java/com/molnmyra/TemplateData.java:51-136 | writes at most the one field, with the value of the first strategy that yields one; otherwise leaves the destination unchanged; reports an escaping exception, among them a null copied into a primitive field; the new state and the exception are exactly those of the specified attempt (`Resolution.Step`) |
| `TemplateData.Create` | src/main/java/com/molnmyra/TemplateData.java:142-150 | returns a fresh instance holding exactly the specified `create` result, or the specified failure |
| `TemplateData.CreateUntemplated` | src/main/java/com/molnmyra/TemplateData.java:138-140 | the overload without a template name behaves as `create` with a null template |
| `TemplateData.CreateList` | src/main/java/com/molnmyra/TemplateData.java:156-162 | returns fresh, pairwise distinct instances, one per input element, equal to the specified `createList` result, or its failure |
| `TemplateData.CreateListUntemplated` | src/main/java/com/molnmyra/TemplateData.java:152-154 | the overload without a template name behaves as `createList` with a null template |
| `TemplateData.Fill` | src/main/java/com/molnmyra/TemplateData.java:168-171 | populates the caller's object in place and returns that very object |
| `TemplateData.FillUntemplated` | src/main/java/com/molnmyra/TemplateData.java:164-166 | the overload without a template name behaves as `fill` with a null template |
| `RunProperties.RunThrowsIffSomeStepThrows` | src/main/java/com/molnmyra/TemplateData.java:37-47 | a run ends with an exception exactly when some attempt throws one, and then with that of the first such attempt; per-field misses never abort it |
| `RunProperties.RunKeepsUnresolved` | src/main/java/com/molnmyra/TemplateData.java:37-47 | a field that no attempt resolves keeps its prior value |
| `RunProperties.RunKeepsResolved` | src/main/java/com/molnmyra/TemplateData.java:37-47 | a resolved field keeps its value whatever its siblings do, as long as nothing throws |
| `RunProperties.UndeclaredNameSkipped` | src/main/java/com/molnmyra/TemplateData.java:37-42 | a listed name the destination does not declare is skipped; the run equals the run without it |
| `RunProperties.NullSourceThrows` | src/main/java/com/molnmyra/TemplateData.java:37-55 | a null source throws at its first attempt, declared field or not, before anything is written |
| `RunProperties.FillKeepsUnresolved` | src/main/java/com/molnmyra/TemplateData.java:168-171 | `fill` leaves every field that no attempt resolves at its prior value |
| `EntryProperties.CreatedListElementwise` | src/main/java/com/molnmyra/TemplateData.java:156-162 | `createList` succeeds exactly when `create` succeeds on every element; then it has the input's length and element i is `create` of input element i; otherwise it fails with the first element's failure |
| `EntryProperties.RunFuel` | src/main/java/com/molnmyra/TemplateData.java:37-47 | a run that does not exhaust the depth bound gives the same result with more fuel |
| `EntryProperties.StepFuel` | src/main/java/com/molnmyra/TemplateData.java:51-136 | the same for one attempt |
| `EntryProperties.NestingFuel` | src/main/java/com/molnmyra/TemplateData.java:121-133 | the same for nested population |
| `EntryProperties.CreatedFuel` | src/main/java/com/molnmyra/TemplateData.java:142-150 | the same for `create` |
| `Scenarios.DirectTransfer` | src/test/java/com/molnmyra/TemplateDataTest.java:23-29 | under "template1", `f1` is copied, `f2` (listed, but `int` is not `String`) and `fdata` (unlisted) stay null |
| `Scenarios.MethodInvocationTransfer` | src/test/java/com/molnmyra/TemplateDataTest.java:31-37 | `f1` comes from `Source.f1()` (666) rather than the `f1` field; `f2` is copied from `int f2`; `f3` gets null from `_f3(null, null)` |
| `Scenarios.ParamTransfer` | src/test/java/com/molnmyra/TemplateDataTest.java:46-55 | `_f3` receives the `Data1` parameter whether or not a `Data3` parameter is also supplied |
| `Scenarios.NestedTransfer` | src/test/java/com/molnmyra/TemplateDataTest.java:39-44 | under "kvida", `Data3.fdata` is a new `Data4` with the fields that `Data4` lists under "kvida" |
| `Scenarios.PrimitiveTransfer` | src/test/java/com/molnmyra/TemplateDataTest.java:75-81 | under "primitive", `fx` and `f2` are copied from the primitive `boolean fx` and `int f2` into boxed fields, and `fdata` is a new `Data10` whose `sant` is copied from `boolean sant` |

## Left out

- Logging (lines 18, 41, 85, 98 and 117 of `TemplateData.java`) is not modelled. The one effect it has is modelled: the message built at line 41 calls `data.getClass()`, which throws on a null source (`Resolution.Step`, `RunProperties.NullSourceThrows`).
- `setAccessible` (lines 79-81, 92-94) is not modelled. The `IllegalAccessException`s of `Field.get` and `Field.set` (lines 111, 116-117, 127-128) are not modelled either: source fields are assumed readable and destination fields writable, as the public fields of every fixture are. The `IllegalArgumentException` of a null copied into a primitive field is modelled (`NullToPrimitive`).
- Method invocation is an oracle (`World.call`) that returns a value or `None` for a failure. What method bodies compute is not modelled, and neither are their side effects on the source or the parameters.
- The oracle's results are unconstrained: nothing ties them to the method's declared return type. A method returning a primitive may yield null in the model, which the engine then assigns to the primitive field. Java can produce no such result, so these runs over-approximate it. The `IllegalArgumentException` that `Field.set` would throw at line 82 or 95 for a value of the wrong type is not modelled.
- Order of `getDeclaredMethods`/`getDeclaredFields`: the declaration order is given by the sequences in `ClassDecl`.
- Static and synthetic fields are not modelled: `ClassDecl.fields` holds the instance fields.
- A null `destination` for `fill` (a `NullPointerException` at line 25), a null class for `create` (line 144) and a null list for `createList` (line 157) are excluded by the types: `Instance`, `ClassDecl` and `seq<Value>` have no null.
- Null entries in the parameter list are excluded by the `Param` type. A null parameter would throw a `NullPointerException` at line 65 when a slot's scan reaches it. An earlier assignable parameter ends that slot's scan first (`continue outer`).
- Assignability uses the supertype names each class lists (`ClassDecl.supers`). The class hierarchy itself, interfaces included, is part of the input.
- Strings and boxed values (`Value.Lit`) are opaque values, with a class and a printed form; their JDK members are not modelled.
- Reflect.EqualsIgnoreCase: `equalsIgnoreCase` is modelled for ASCII letters only. Unicode case mapping is not modelled.
- Generic type arguments, `@Property` renames and destination-side methods are not modelled, because `TemplateData.java` has none of them. The assertions at `TemplateDataTest.java:62-63`, `:70-72` and `:100-102` expect them.
- Unbounded nesting through cyclic entity types is bounded by fuel. When the fuel runs out the result is `DepthExhausted`, which stands for the stack overflow the Java code would reach.
- A nested instance is stored in its field as a value (`Ref(Obj)`), not as a shared reference. The engine keeps no other reference to it, so nothing can observe the difference.
