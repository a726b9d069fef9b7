/**
 * The capture engine of BeanPathMagic.java, on one thread: the current-path slot, the mock
 * cache, the interception step that every intercepted call of a mock runs, and the `$`/`$$`
 * façade that takes the captured path out of the slot.
 */
module Magic {
  import opened Wrappers
  import opened JavaTypes
  import opened BeanPaths
  import Primitives
  import NameUtils
  import Assert

  /**
   * What the engine takes from the libraries it stands on: Guava's `TypeToken.resolveType`,
   * which substitutes a mock type's actual type arguments into a generic return type, and
   * whether the bytecode generator manages to subclass and instantiate a class.
   */
  datatype Reflection = Reflection(
    resolveType: (TypeToken, GenericType) -> TypeToken,
    canMock: Class -> bool)

  /** The reflective view of an intercepted method: `getName()`, `getReturnType()`, `getGenericReturnType()`. */
  datatype MethodInfo = MethodInfo(name: string, returnType: Class, genericReturnType: GenericType)

  /**
   * A generated mock together with its `MockInvocationHandler`: the type token it was made for
   * and that token's raw class.
   */
  class MockInstance {
    const mockType: TypeToken
    const rawMockType: Class

    constructor (mockType: TypeToken)
      ensures this.mockType == mockType && rawMockType == mockType.GetRawType()
    {
      this.mockType := mockType;
      this.rawMockType := mockType.GetRawType();
    }
  }

  /** What an intercepted call returns: null or a boxed default value, or a further mock. */
  datatype Returned = Plain(value: Value) | MockRef(mock: MockInstance)

  /** The calling thread's slot for the path being captured (`CurrentPath`). */
  class CurrentPath {
    var path: Option<BeanPath>

    constructor ()
      ensures path == None
    {
      path := None;
    }

    /** `initIfNotAlready(clazz)`: starts a path at the root of `clazz` when none is being captured. */
    method InitIfNotAlready(clazz: Class)
      modifies this
      ensures old(path).None? ==> path == Some(Root(clazz))
      ensures old(path).Some? ==> path == old(path)
    {
      if path.None? {
        var root := BeanPath.RootOf(Some(clazz));
        path := Some(root.value);
      }
    }

    /** `append(name, type)`: extends the path being captured by one property. */
    method Append(name: string, clazz: Class)
      requires path.Some?
      modifies this
      ensures path == Some(Node(old(path).value, name, clazz))
      ensures path.value.Depth() == old(path).value.Depth() + 1
    {
      var extended := path.value.Append(Some(name), Some(clazz));
      path := Some(extended.value);
    }

    /** `evict()`: hands out the path being captured (null if none) and empties the slot. */
    method Evict() returns (evicted: Option<BeanPath>)
      modifies this
      ensures evicted == old(path) && path == None
    {
      evicted := path;
      path := None;
    }
  }

  /**
   * The return type the interception step works with: the declared return type when it is
   * not generic, otherwise the generic return type resolved against the mock's type token.
   */
  function ResolvedReturnType(reflection: Reflection, mockType: TypeToken, m: MethodInfo): (t: TypeToken)
    ensures m.genericReturnType == ClassType(m.returnType) ==> t.GetRawType() == m.returnType && t.typeArguments == []
    ensures m.genericReturnType != ClassType(m.returnType) ==> t == reflection.resolveType(mockType, m.genericReturnType)
  {
    if m.genericReturnType == ClassType(m.returnType) then TokenOf(m.returnType)
    else reflection.resolveType(mockType, m.genericReturnType)
  }

  /** The mock cache (`Mocker`): one mock per type token, created on first request. */
  class Mocker {
    var cache: map<TypeToken, MockInstance>
    const reflection: Reflection

    /** Every cached mock was made for the token it is cached under, and knows that token's raw class. */
    ghost predicate Valid()
      reads this
    {
      forall token :: token in cache ==>
        cache[token].mockType == token && cache[token].rawMockType == token.GetRawType()
    }

    constructor (reflection: Reflection)
      ensures Valid() && cache == map[] && this.reflection == reflection
    {
      cache := map[];
      this.reflection := reflection;
    }

    /**
     * `mock(type)`: the cached mock of the token if there is one; otherwise a new mock, which
     * is cached, so that every later request for the token gets this same instance. When the
     * generator fails, a BeanPathMagicException is raised and nothing is cached.
     */
    method Mock(token: TypeToken) returns (r: Result<MockInstance, Exception>)
      requires Valid()
      modifies this
      ensures Valid()
      ensures token in old(cache) ==> r == Success(old(cache)[token]) && cache == old(cache)
      ensures token !in old(cache) && reflection.canMock(token.GetRawType()) ==>
        && r.Success? && fresh(r.value)
        && cache == old(cache)[token := r.value]
      ensures token !in old(cache) && !reflection.canMock(token.GetRawType()) ==>
        r == Failure(MockCreationException(token)) && cache == old(cache)
      ensures r.Success? ==>
        && token in cache && cache[token] == r.value
        && r.value.mockType == token && r.value.rawMockType == token.GetRawType()
    {
      if token in cache {
        return Success(cache[token]);
      }
      if !reflection.canMock(token.GetRawType()) {
        return Failure(MockCreationException(token));
      }
      var mock := new MockInstance(token);
      cache := cache[token := mock];
      r := Success(mock);
    }

    /**
     * `MockInvocationHandler.invoke`: what a call of method `m` on the mock `target` does.
     * It starts a path at the mock's raw type if none is being captured, appends exactly one
     * property (the derived name, the resolved return type with a primitive boxed), and
     * returns the default value of a primitive type, null for a final class, and otherwise
     * the mock of the resolved return type.
     */
    method Invoke(target: MockInstance, m: MethodInfo, current: CurrentPath)
      returns (r: Result<Returned, Exception>)
      requires Valid()
      modifies this, current
      ensures Valid()
      ensures
        var returnType := ResolvedReturnType(reflection, target.mockType, m);
        var raw := returnType.GetRawType();
        var start := if old(current.path).Some? then old(current.path).value else Root(target.rawMockType);
        && current.path == Some(Node(start, NameUtils.StripGetIsPrefixIfAny(m.name), Box(raw)))
        && (raw.IsPrimitive() ==> r == Success(Plain(DefaultValue(raw.kind))) && cache == old(cache))
        && (!raw.IsPrimitive() && raw.IsFinal() ==> r == Success(Plain(Null)) && cache == old(cache))
        && (!raw.IsFinal() && returnType in old(cache) ==>
              r == Success(MockRef(old(cache)[returnType])) && cache == old(cache))
        && (!raw.IsFinal() && returnType !in old(cache) && reflection.canMock(raw) ==>
              && r.Success? && r.value.MockRef? && fresh(r.value.mock)
              && r.value.mock.mockType == returnType && r.value.mock.rawMockType == raw
              && cache == old(cache)[returnType := r.value.mock])
        && (!raw.IsFinal() && returnType !in old(cache) && !reflection.canMock(raw) ==>
              r == Failure(MockCreationException(returnType)) && cache == old(cache))
    {
      current.InitIfNotAlready(target.rawMockType);

      var returnType: TypeToken;
      var rawReturnType := m.returnType;
      if m.genericReturnType == ClassType(rawReturnType) {
        returnType := TokenOf(rawReturnType);
      } else {
        returnType := reflection.resolveType(target.mockType, m.genericReturnType);
        rawReturnType := returnType.GetRawType();
      }

      var name := NameUtils.StripGetIsPrefixIfAny(m.name);
      var clazz := rawReturnType;
      if rawReturnType.IsPrimitive() {
        var wrapper := Primitives.GetWrapperClass(Some(rawReturnType));
        clazz := wrapper.value;
      }

      current.Append(name, clazz);

      if rawReturnType.IsPrimitive() {
        var default := Primitives.GetDefaultValue(Some(rawReturnType));
        r := Success(Plain(default.value));
      } else if rawReturnType.IsFinal() {
        r := Success(Plain(Null));
      } else {
        var mock := Mock(returnType);
        r := if mock.Success? then Success(MockRef(mock.value)) else Failure(mock.error);
      }
    }
  }

  /** `root(clazz)`: the mock of a class; a null class is rejected. */
  method RootMock(mocker: Mocker, clazz: Option<Class>) returns (r: Result<MockInstance, Exception>)
    requires mocker.Valid()
    modifies mocker
    ensures mocker.Valid()
    ensures clazz.None? ==>
      r == Failure(IllegalArgumentException("Argument 'clazz' must not be null"))
      && mocker.cache == old(mocker.cache)
    ensures clazz.Some? && TokenOf(clazz.value) in old(mocker.cache) ==>
      r == Success(old(mocker.cache)[TokenOf(clazz.value)]) && mocker.cache == old(mocker.cache)
    ensures clazz.Some? && r.Success? ==>
      && r.value.mockType == TokenOf(clazz.value) && r.value.rawMockType == clazz.value
      && TokenOf(clazz.value) in mocker.cache && mocker.cache[TokenOf(clazz.value)] == r.value
    ensures clazz.Some? && TokenOf(clazz.value) !in old(mocker.cache) && mocker.reflection.canMock(clazz.value) ==>
      r.Success? && fresh(r.value) && mocker.cache == old(mocker.cache)[TokenOf(clazz.value) := r.value]
    ensures clazz.Some? && TokenOf(clazz.value) !in old(mocker.cache) && !mocker.reflection.canMock(clazz.value) ==>
      r == Failure(MockCreationException(TokenOf(clazz.value))) && mocker.cache == old(mocker.cache)
  {
    var c := Assert.NotNull(clazz, Some("clazz"));
    if c.Failure? {
      assert ' ' !in "clazz";
      assert "Argument '" + "clazz" + "' must not be null" == "Argument 'clazz' must not be null";
      return Failure(c.error);
    }
    r := mocker.Mock(TokenOf(c.value));
  }

  /**
   * `root(typeLiteral)`: the mock of a fully parameterised type, given by the token a
   * `TypeLiteral` captures; a null literal is rejected.
   */
  method RootMockOfType(mocker: Mocker, token: Option<TypeToken>) returns (r: Result<MockInstance, Exception>)
    requires mocker.Valid()
    modifies mocker
    ensures mocker.Valid()
    ensures token.None? ==>
      r == Failure(IllegalArgumentException("Argument 'type' must not be null"))
      && mocker.cache == old(mocker.cache)
    ensures token.Some? && token.value in old(mocker.cache) ==>
      r == Success(old(mocker.cache)[token.value]) && mocker.cache == old(mocker.cache)
    ensures token.Some? && r.Success? ==>
      r.value.mockType == token.value && r.value.rawMockType == token.value.GetRawType()
      && token.value in mocker.cache && mocker.cache[token.value] == r.value
    ensures token.Some? && token.value !in old(mocker.cache) && mocker.reflection.canMock(token.value.GetRawType()) ==>
      r.Success? && fresh(r.value) && mocker.cache == old(mocker.cache)[token.value := r.value]
    ensures token.Some? && token.value !in old(mocker.cache) && !mocker.reflection.canMock(token.value.GetRawType()) ==>
      r == Failure(MockCreationException(token.value)) && mocker.cache == old(mocker.cache)
  {
    var t := Assert.NotNull(token, Some("type"));
    if t.Failure? {
      assert ' ' !in "type";
      assert "Argument '" + "type" + "' must not be null" == "Argument 'type' must not be null";
      return Failure(t.error);
    }
    r := mocker.Mock(t.value);
  }

  /**
   * `$(callChain)`: takes the captured path out of the slot, which is left empty; fails with
   * the "no current path" BeanPathMagicException when nothing was captured.
   */
  method Dollar(current: CurrentPath) returns (r: Result<BeanPath, Exception>)
    modifies current
    ensures current.path == None
    ensures old(current.path).Some? ==> r == Success(old(current.path).value)
    ensures old(current.path).None? ==> r == Failure(NoCurrentPathException(NoCurrentPathMessage))
  {
    var path := current.Evict();
    if path.None? {
      return Failure(NoCurrentPathException(NoCurrentPathMessage));
    }
    r := Success(path.value);
  }

  /** `$$(callChain)`: the dot-delimited form of what `$` returns. */
  method DoubleDollar(current: CurrentPath) returns (r: Result<string, Exception>)
    modifies current
    ensures current.path == None
    ensures old(current.path).Some? ==> r == Success(old(current.path).value.DotDelimitedString())
    ensures old(current.path).None? ==> r == Failure(NoCurrentPathException(NoCurrentPathMessage))
  {
    var path := Dollar(current);
    if path.Failure? {
      return Failure(path.error);
    }
    var s := path.value.ToDotDelimitedString();
    r := Success(s);
  }
}
