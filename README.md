# beanpath in Dafny

A model of the core of the beanpath library (CUSTIS). The library turns a chain of JavaBean
getter calls made on a recording mock, such as `$(person.getDocument().getNumber())`, into an
immutable property path. It can also give that path's dot-delimited name, here
`"document.number"`.

The model has these modules:

- `BeanPaths` (`bean_path.dfy`): the immutable `BeanPath`.
  - It is a datatype: a root with the pseudo name `<root>`, or a node holding its parent, a
    name and a type.
  - It covers `root`, `append`, the parent and root queries, iteration from the root, the
    dot-delimited and debug string forms, structural `equals`, and the overflowing `int`
    `hashCode`.
  - The builder-style recursions (`toCollection`, `toDotDelimitedString(sb)`, `toString(sb)`)
    are methods over small `PathCollection` and `StringBuilder` classes. Each is proved
    against a specification function.
  - The lazily written transient fields are the class `CachedForms`.
- `Magic` (`bean_path_magic.dfy`): the capture engine of `BeanPathMagic`, on one thread.
  - The current-path slot is a class over `Option<BeanPath>`.
  - The mock cache is a class over a map from type token to mock.
  - It covers the interception step `MockInvocationHandler.invoke`, the `root(...)`
    entry points and the `$`/`$$` façade.
- `NameUtils` (`name_utils.dfy`): accessor name to property name, proved equal to the
  JavaBeans decapitalisation rule (JavaBeans API Specification 1.01, section 8.8).
- `Primitives` (`primitives.dfy`): the nine-row `Prm` table.
  - `findPrm` is a loop over it, with both error messages.
  - `getWrapperClass` and `getDefaultValue` are proved to agree with the boxing conversion
    (section 5.1.7 of the Java Language Specification) and with the default values (section
    4.12.5).
- `Assert` (`assert.dfy`): `notNull` and its three message rules.
- `JavaTypes` (`java_types.dfy`): the abstract Java vocabulary the core relies on.
  - Class descriptors carry the `isPrimitive` and `isFinal` flags.
  - Guava's `TypeToken`, boxed values and the library's exceptions.
  - 32-bit wrap-around (`Wrap32`).
- `Scenarios` (`scenarios.dfy`): the library's unit-test scenarios, stated against the model.

How Java concepts map onto the model:

- A Java `null` argument is `None` of `Option`.
- A thrown exception is `Failure` of `Result`.
- Reflection the engine cannot see (`TypeToken.resolveType` and whether the bytecode
  generator can mock a class) is a `Reflection` value of two functions, held by the mock
  cache.

## Model

| member | source | states |
|---|---|---|
| Assert.NotNull | src/main/java/ru/custis/beanpath/Assert.java:25-36 | a present argument is returned unchanged and only an absent one fails; the failure is always IllegalArgumentException; the message is "Argument must not be null" for no claim, "Argument '<claim>' must not be null" for a claim without a space, and the claim itself otherwise |
| Assert.NotNullMessageIsReadable | src/main/java/ru/custis/beanpath/Assert.java:26-32 | every rejection message contains a space and quotes the claim or argument name it was given |
| JavaTypes.Box | src/main/java/ru/custis/beanpath/BeanPathMagic.java:120 | the recorded type is never primitive; a primitive becomes its (final) wrapper class, any other class is kept |
| JavaTypes.Wrap32OfHornerStep | src/main/java/ru/custis/beanpath/BeanPath.java:202-204 | truncating to 32 bits after each `31 * h + x` step equals truncating once at the end |
| Primitives.RowOf | src/main/java/ru/custis/beanpath/Primitives.java:50-58 | every primitive type has a row in the table whose type is that primitive class |
| Primitives.Rejection | src/main/java/ru/custis/beanpath/Primitives.java:42-45 | the exception `findPrm` throws is an IllegalArgumentException; for null its message is "Parameter 'type' must not be null", for a class it starts "Not a primitive: " and names the class |
| Primitives.FindPrm | src/main/java/ru/custis/beanpath/Primitives.java:36-46 | succeeds exactly for the nine primitive classes, with the table row of that type; a null argument fails with "Parameter 'type' must not be null", a non-primitive with "Not a primitive: " followed by the class's `toString()` |
| Primitives.GetWrapperClass | src/main/java/ru/custis/beanpath/Primitives.java:27-29 | the wrapper of a primitive class is its boxed class (boolean to Boolean … void to Void); anything else fails as `findPrm` does |
| Primitives.GetDefaultValue | src/main/java/ru/custis/beanpath/Primitives.java:32-34 | the default of a primitive class is the language's initial value (false, '\u0000', zeros, null for void); anything else fails as `findPrm` does |
| Primitives.TableAgreesWithLanguage | src/main/java/ru/custis/beanpath/Primitives.java:49-58 | every row is primitive, sits where `RowOf` says, and pairs its type with the boxed class and the initial value |
| Primitives.RowTypesAreDistinct | src/main/java/ru/custis/beanpath/Primitives.java:36-41 | no two rows share a type, so the row `findPrm` returns is unique |
| BeanPaths.JoinSnoc | src/main/java/ru/custis/beanpath/BeanPath.java:167-171 | joining one more part appends the separator and the part |
| BeanPaths.BeanPath.RootOf | src/main/java/ru/custis/beanpath/BeanPath.java:48-51 | `root(t)` has type `t`, no parent, name "<root>", is a root and is its own root; a null type fails with "Argument 'type' must not be null" |
| BeanPaths.BeanPath.Append | src/main/java/ru/custis/beanpath/BeanPath.java:57-61 | the new path has the receiver as parent, the given name and type, and one more property; a null name is rejected first, then a null type, each with its IllegalArgumentException message |
| BeanPaths.BeanPath.IsRoot | src/main/java/ru/custis/beanpath/BeanPath.java:63-74 | `isRoot()` holds exactly when `getParent()` is null |
| BeanPaths.BeanPath.HasParent | src/main/java/ru/custis/beanpath/BeanPath.java:90-101 | `hasParent()` holds exactly when `getParent()` is not null, and exactly when the path is not a root |
| BeanPaths.BeanPath.GetParent | src/main/java/ru/custis/beanpath/BeanPath.java:103-109 | `getParent()` is null exactly for a root; otherwise it is the path one property shorter, which this path extends by its own name and type |
| BeanPaths.BeanPath.NameAndTypeAreTheTail | src/main/java/ru/custis/beanpath/BeanPath.java:111-123 | `getName()` is "<root>" at a root and otherwise the last property name; `getName()` and `getType()` make up the last debug segment and belong to the last element |
| BeanPaths.BeanPath.GetRoot | src/main/java/ru/custis/beanpath/BeanPath.java:76-88 | `getRoot()` is a root; it is the path itself for a root, and the parent's root otherwise |
| BeanPaths.BeanPath.GetRootIsIdempotent | src/main/java/ru/custis/beanpath/BeanPath.java:80-84 | `getRoot().getRoot() == getRoot()` |
| BeanPaths.BeanPath.ParentIsRootIffGetRoot | src/main/java/ru/custis/beanpath/BeanPath.java:167 | the comparison `getRoot() != parent` holds exactly when the parent is not the root |
| BeanPaths.BeanPath.Elements | src/main/java/ru/custis/beanpath/BeanPath.java:125-141 | iteration yields depth + 1 paths, the root first and this path last, each after the first having its predecessor as parent |
| BeanPaths.NamesOf | src/main/java/ru/custis/beanpath/BeanPath.java:163-173 | the property names are, position by position, the names of the non-root elements |
| BeanPaths.SegmentsOfIsElementwise | src/main/java/ru/custis/beanpath/BeanPath.java:240-247 | the debug segments are, position by position, `name:SimpleTypeName` of each element |
| BeanPaths.BeanPath.PropertyNamesOfNode | src/main/java/ru/custis/beanpath/BeanPath.java:163-173 | a root has no property names; a node's are its parent's followed by its own name |
| BeanPaths.BeanPath.SegmentsOfNode | src/main/java/ru/custis/beanpath/BeanPath.java:240-247 | a root has its own segment only; a node's segments are its parent's followed by its own |
| BeanPaths.BeanPath.DotDelimitedOfNode | src/main/java/ru/custis/beanpath/BeanPath.java:143-173 | the dot-delimited form is "" for a root, the bare name directly below the root, and the parent's form, '.' and the name deeper down |
| BeanPaths.BeanPath.DebugStringOfNode | src/main/java/ru/custis/beanpath/BeanPath.java:216-247 | the debug form of a root is `<root>:SimpleName`; a node's is its parent's, a single "/", then `name:SimpleName` |
| BeanPaths.BeanPath.ToCollection | src/main/java/ru/custis/beanpath/BeanPath.java:135-141 | the collection gains the elements from the root to this path, in order, after what it held |
| BeanPaths.BeanPath.Iterator | src/main/java/ru/custis/beanpath/BeanPath.java:130-133 | `iterator()` yields exactly the elements, root first |
| BeanPaths.BeanPath.AppendDotDelimited | src/main/java/ru/custis/beanpath/BeanPath.java:163-173 | the builder gains the property names joined by '.' |
| BeanPaths.BeanPath.ToDotDelimitedString | src/main/java/ru/custis/beanpath/BeanPath.java:143-155 | the result is the non-root names joined by '.', and "" for a root |
| BeanPaths.BeanPath.AppendDebug | src/main/java/ru/custis/beanpath/BeanPath.java:240-247 | the builder gains the `name:SimpleName` segments joined by "/" |
| BeanPaths.BeanPath.ToString | src/main/java/ru/custis/beanpath/BeanPath.java:216-232 | the result is the debug form of the path |
| BeanPaths.BeanPath.Equals | src/main/java/ru/custis/beanpath/BeanPath.java:179-186 | no path equals null |
| BeanPaths.EqualsIsStructural | src/main/java/ru/custis/beanpath/BeanPath.java:175-193 | `equals` holds exactly when parents (both absent or equal), names and types agree all the way to the root, i.e. when the paths are the same value |
| BeanPaths.EqualsIsEquivalence | src/main/java/ru/custis/beanpath/BeanPath.java:179-193 | `equals` is reflexive, symmetric and transitive |
| BeanPaths.HashCodeIsConsistentWithEquals | src/main/java/ru/custis/beanpath/BeanPath.java:195-208 | equal paths have equal hash codes, whatever hash codes strings and classes have |
| BeanPaths.BeanPath.HashCode | src/main/java/ru/custis/beanpath/BeanPath.java:198-208 | the overflowing `int` hash, computed step by step from the parent's, equals the unbounded `31*(31*parentHash + nameHash) + typeHash` recurrence (parentHash 0 at the root) truncated once to 32 bits |
| BeanPaths.PathCollection.constructor | src/main/java/ru/custis/beanpath/BeanPath.java:132 | a new `LinkedList` is empty |
| BeanPaths.PathCollection.Add | src/main/java/ru/custis/beanpath/BeanPath.java:139 | `add` puts the path at the end |
| BeanPaths.StringBuilder.constructor | src/main/java/ru/custis/beanpath/BeanPath.java:152 | a new builder is empty |
| BeanPaths.StringBuilder.Append | src/main/java/ru/custis/beanpath/BeanPath.java:169-171 | `append` adds the text at the end |
| BeanPaths.CachedForms.constructor | src/main/java/ru/custis/beanpath/BeanPath.java:157-161 | a new path has nothing memoised (hash code 0) |
| BeanPaths.CachedForms.ToDotDelimitedString | src/main/java/ru/custis/beanpath/BeanPath.java:149-161 | returns the dot-delimited form, keeps it, and returns the same value on every later call |
| BeanPaths.CachedForms.HashCode | src/main/java/ru/custis/beanpath/BeanPath.java:198-214 | returns the path's hash code and keeps it; recomputing while the kept value is 0 gives the same value |
| BeanPaths.CachedForms.ToString | src/main/java/ru/custis/beanpath/BeanPath.java:225-238 | returns the debug form, keeps it, and returns the same value on every later call |
| NameUtils.ToLowerCase | src/main/java/ru/custis/beanpath/BeanPathMagic.java:187 | an upper-case letter 'A'..'Z' becomes the lower-case letter at the same place in 'a'..'z'; anything else is unchanged |
| NameUtils.StripGetIsPrefixIfAny | src/main/java/ru/custis/beanpath/BeanPathMagic.java:167-177 | a non-empty name gives a non-empty result no longer than the name; the result is the name itself unless the name has a "get" or "is" prefix followed by an upper-case letter, and then it is the name minus the prefix with at most its first character lower-cased |
| NameUtils.StripAndDecapitalize | src/main/java/ru/custis/beanpath/BeanPathMagic.java:179-192 | the result is the name minus the prefix, identical from its second character on |
| NameUtils.StripAndDecapitalizeIsDecapitalize | src/main/java/ru/custis/beanpath/BeanPathMagic.java:179-192 | behind an upper-case letter, stripping the prefix and decapitalising is JavaBeans `decapitalize` of the rest |
| NameUtils.StripGetIsPrefixIsJavaBeansRule | src/main/java/ru/custis/beanpath/BeanPathMagic.java:167-192 | the derived name is `decapitalize` of what follows a "get" prefix, failing that an "is" prefix, and otherwise the name unchanged |
| NameUtils.DerivedNameStartsDecapitalised | src/main/java/ru/custis/beanpath/BeanPathMagic.java:185-191 | a stripped name starts with the lower-cased letter (followed by no upper-case letter), or with two upper-case letters kept as they were |
| NameUtils.NamingExamples | src/test/java/ru/custis/beanpath/BeanPathMagicTest.java:95-106 | getProperty, isProperty → property; getA → a; getUTC → UTC; property, is, get, getting, isabel unchanged |
| Magic.MockInstance.constructor | src/main/java/ru/custis/beanpath/BeanPathMagic.java:97-100 | the handler remembers the mock type and its raw class |
| Magic.CurrentPath.constructor | src/main/java/ru/custis/beanpath/BeanPathMagic.java:142 | a thread starts with no current path |
| Magic.CurrentPath.InitIfNotAlready | src/main/java/ru/custis/beanpath/BeanPathMagic.java:144-148 | an empty slot gets the root of the class; a path already present is left untouched |
| Magic.CurrentPath.Append | src/main/java/ru/custis/beanpath/BeanPathMagic.java:150-154 | the slot, which must hold a path, gets that path extended by exactly one property |
| Magic.CurrentPath.Evict | src/main/java/ru/custis/beanpath/BeanPathMagic.java:156-160 | returns what the slot held (possibly nothing) and leaves it empty |
| Magic.Mocker.constructor | src/main/java/ru/custis/beanpath/BeanPathMagic.java:66 | the cache starts empty |
| Magic.Mocker.Mock | src/main/java/ru/custis/beanpath/BeanPathMagic.java:70-86 | a hit returns the cached mock and changes nothing; a miss creates a fresh mock for the token and caches it, so later requests get that same instance; a creation failure raises the "failed to mock type" exception and caches nothing; every cached mock belongs to its token |
| Magic.ResolvedReturnType | src/main/java/ru/custis/beanpath/BeanPathMagic.java:107-117 | a method whose generic return type is its raw return class gives `TypeToken.of` that class (same raw type, no type arguments); any other gives the mock type's resolution of the generic return type |
| Magic.Mocker.Invoke | src/main/java/ru/custis/beanpath/BeanPathMagic.java:103-136 | the slot becomes (old path, or the root of the mock's raw type if empty) extended by the derived name and the resolved return type, boxed if primitive; it returns the default value for a primitive (void included), null for a final class, and otherwise the mock of the resolved type as `mock` gives it |
| Magic.RootMock | src/main/java/ru/custis/beanpath/BeanPathMagic.java:37-41 | `root(clazz)` is the cached or newly created mock of `TypeToken.of(clazz)`; a null class fails with "Argument 'clazz' must not be null" |
| Magic.RootMockOfType | src/main/java/ru/custis/beanpath/BeanPathMagic.java:43-47 | `root(typeLiteral)` is the cached or newly created mock of the literal's token; a null literal fails with "Argument 'type' must not be null" |
| Magic.Dollar | src/main/java/ru/custis/beanpath/BeanPathMagic.java:50-56 | `$` returns the captured path and empties the slot; with nothing captured it raises the BeanPathMagicException "No current path. Probably your call chain contains a final method." |
| Magic.DoubleDollar | src/main/java/ru/custis/beanpath/BeanPathMagic.java:58-60 | `$$` is the dot-delimited form of what `$` returns, and empties the slot; with nothing captured it raises the same "No current path…" exception |
| Scenarios.CaptureNestedProperty | src/test/java/ru/custis/beanpath/BeanPathMagicTest.java:49 | `$(person.getDocument().getNumber())` is `root(Person).append("document", Document).append("number", String)` |
| Scenarios.CaptureFinalTypedProperty | src/test/java/ru/custis/beanpath/BeanPathMagicTest.java:46 | `getName()` on a mock returns null, because String is final, and `$` gives `root(Person).append("name", String)` |
| Scenarios.CaptureEnumProperty | src/test/java/ru/custis/beanpath/BeanPathMagicTest.java:55 | `getGender()` on a mock returns null, because an enum is final, and `$` gives `root(Person).append("gender", Gender)` |
| Scenarios.StaleSlotAfterFinalType | src/test/java/ru/custis/beanpath/BeanPathMagicTest.java:183-200 | a chain ending in the null of a final type leaves its path in the slot, so the next `getName()` extends it and the clean-up `$` gives `name.name` below the Person root; both calls return null |
| Scenarios.CapturePrimitiveProperty | src/test/java/ru/custis/beanpath/BeanPathMagicTest.java:52 | `getAge()` returns 0 and records the property with type Integer |
| Scenarios.CaptureVoidMethod | src/test/java/ru/custis/beanpath/BeanPathMagicTest.java:166-171 | `sleep()` returns null and records `sleep` with type Void |
| Scenarios.CaptureGenericProperty | src/test/java/ru/custis/beanpath/BeanPathMagicTest.java:130-136 | `getId()` of `Identified<ID>` records the type the resolver substitutes for `ID`, boxed |
| Scenarios.CaptureDotDelimited | src/test/java/ru/custis/beanpath/BeanPathMagicTest.java:61 | `$$(person.getDocument().getIssuedBy())` is "document.issuedBy" |
| Scenarios.DocumentIssuedByForm | src/test/java/ru/custis/beanpath/BeanPathMagicTest.java:61 | the dot-delimited form of `Person.document.issuedBy` is "document.issuedBy" |
| Scenarios.MockCaching | src/test/java/ru/custis/beanpath/BeanPathMagicTest.java:64-71 | two `root(Person.class)` calls give the same mock |
| Scenarios.NoCurrentPath | src/test/java/ru/custis/beanpath/BeanPathMagicTest.java:177-180 | `$` with nothing captured fails with the "No current path…" exception |
| Scenarios.PathForms | src/test/java/ru/custis/beanpath/BeanPathTest.java:68-92 | `DataSource.connection.metaData` iterates root, connection, metaData; its dot form is "connection.metaData" and its root's is "" |
| Scenarios.DebugForm | src/test/java/ru/custis/beanpath/BeanPathTest.java:111-117 | the debug form of `DataSource.connection.metaData` is "<root>:DataSource/connection:Connection/metaData:DatabaseMetaData" |

## Left out

- Concurrency is not modelled. The model is one thread with one current-path slot and a plain
  map. This leaves out the `ConcurrentHashMap` and the double-checked `synchronized` block of
  `Mocker.mock`, the `ThreadLocal` slot, and the benign races on the memo fields.
- Bytecode generation is not modelled. The generated subclass, class loading and
  `Unsafe.allocateInstance` (MockMaker.java, StolenUnsafe.java) are not part of this model.
  Mock creation is a fresh `MockInstance` whose success is the `canMock` parameter.
- Identity `equals`/`hashCode`/`toString` of mocks is not modelled. Mocks are compared as
  object references.
- Methods the generator does not intercept (private and final methods) are not modelled.
  Their calls never reach `invoke`, so the model has nothing to state about them.
- The `args` parameter of `invoke` is not modelled, because the interception step ignores it.
- `TypeToken.resolveType` is a function parameter, and Java generics and wildcard bounds are
  not modelled. TypeLiteral.java is not part of this model; `root(typeLiteral)` takes the token
  it would capture. Whether a method's generic return type is its raw class is a constructor
  of `GenericType`.
- The message of a mock-creation failure is not modelled. That failure is the
  `MockCreationException(token)` constructor; the `Formatter` message and the cause
  extraction of BeanPathMagicException.java are left out. The "no current path" exception
  carries its message, the constant `NoCurrentPathMessage`.
- Hash codes are partly parameters. `String.hashCode()` and `Class.hashCode()` are function
  parameters; only the 32-bit combination in `BeanPath.hashCode()` is modelled.
- `Class.getSimpleName()` is a field of the class descriptor, and `Class.toString()` is
  modelled as "class "/"interface " before the name, or the bare name for a primitive.
- Letter case is ASCII only. `Character.isUpperCase` and `Character.toLowerCase` are
  modelled over ASCII; the rest of Unicode is out of scope.
- `BeanPaths.BeanPath.Equals`: an argument that is not a `BeanPath` (which `equals` rejects
  by class) is not modelled. Only null is. Nor is the `this == obj` shortcut, whose answer
  `EqualsIsStructural` shows the structural comparison gives anyway.
- `BeanPaths.CachedForms.HashCode`: the parent's hash code is the function's value rather
  than a call to the parent object's own memo. By `CachedForms.Valid` the two agree.
- Memoised forms share by value: `assertSame` on two `toString()` calls is modelled as
  returning the same string value, not the same object.
- Serialization (`Serializable`, `serialVersionUID`, the `transient` markers) is not modelled.
- The doc comment of `BeanPath.toString()` shows "//" between segments, but the code and its
  test use a single "/". The model follows the code.
