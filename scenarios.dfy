/**
 * Capture scenarios of the library's tests, stated against the model: each one starts with an
 * empty mock cache and an empty current-path slot, as a fresh thread would.
 */
module Scenarios {
  import opened Wrappers
  import opened JavaTypes
  import opened BeanPaths
  import opened Magic
  import NameUtils

  // The test beans and the library classes they use.
  const PersonClass := Reference("ru.custis.beanpath.beans.Person", "Person", false, false)
  const DocumentClass := Reference("ru.custis.beanpath.beans.Document", "Document", false, false)
  const GenderClass := Reference("ru.custis.beanpath.beans.Gender", "Gender", false, true)
  const StringClass := Reference("java.lang.String", "String", false, true)
  const DataSourceClass := Reference("javax.sql.DataSource", "DataSource", true, false)
  const ConnectionClass := Reference("java.sql.Connection", "Connection", true, false)
  const MetaDataClass := Reference("java.sql.DatabaseMetaData", "DatabaseMetaData", true, false)

  /** An accessor whose return type is not generic. */
  function Accessor(name: string, returnType: Class): MethodInfo
  {
    MethodInfo(name, returnType, ClassType(returnType))
  }

  /** `$(person.getDocument().getNumber())` captures the two properties below the Person root. */
  method CaptureNestedProperty(reflection: Reflection) returns (path: Result<BeanPath, Exception>)
    requires reflection.canMock(PersonClass) && reflection.canMock(DocumentClass)
    ensures path == Success(Node(Node(Root(PersonClass), "document", DocumentClass), "number", StringClass))
  {
    var mocker := new Mocker(reflection);
    var current := new CurrentPath();
    var person := RootMock(mocker, Some(PersonClass));
    var document := mocker.Invoke(person.value, Accessor("getDocument", DocumentClass), current);
    var number := mocker.Invoke(document.value.mock, Accessor("getNumber", StringClass), current);
    path := Dollar(current);
    assert NameUtils.StripGetIsPrefixIfAny("getDocument") == "document";
    assert NameUtils.StripGetIsPrefixIfAny("getNumber") == "number";
  }

  /** `person.getName()` returns null, since String is final, and still records the property. */
  method CaptureFinalTypedProperty(reflection: Reflection)
    returns (name: Result<Returned, Exception>, path: Result<BeanPath, Exception>)
    requires reflection.canMock(PersonClass)
    ensures name == Success(Plain(Null))
    ensures path == Success(Node(Root(PersonClass), "name", StringClass))
  {
    var mocker := new Mocker(reflection);
    var current := new CurrentPath();
    var person := RootMock(mocker, Some(PersonClass));
    name := mocker.Invoke(person.value, Accessor("getName", StringClass), current);
    path := Dollar(current);
    assert NameUtils.StripGetIsPrefixIfAny("getName") == "name";
  }

  /**
   * A chain that ends in the null of a final type never reaches `$`, so its path stays in the
   * slot: the next `person.getName()` extends that stale path instead of starting a new one,
   * and the clean-up `$` takes `name.name`.
   */
  method StaleSlotAfterFinalType(reflection: Reflection)
    returns (first: Result<Returned, Exception>, second: Result<Returned, Exception>,
             cleanUp: Result<BeanPath, Exception>)
    requires reflection.canMock(PersonClass)
    ensures first == Success(Plain(Null)) && second == Success(Plain(Null))
    ensures cleanUp == Success(Node(Node(Root(PersonClass), "name", StringClass), "name", StringClass))
  {
    var mocker := new Mocker(reflection);
    var current := new CurrentPath();
    var person := RootMock(mocker, Some(PersonClass));
    first := mocker.Invoke(person.value, Accessor("getName", StringClass), current);
    second := mocker.Invoke(person.value, Accessor("getName", StringClass), current);
    cleanUp := Dollar(current);
    assert NameUtils.StripGetIsPrefixIfAny("getName") == "name";
  }

  /** `person.getGender()` returns null, since an enum is final, and records the property. */
  method CaptureEnumProperty(reflection: Reflection)
    returns (gender: Result<Returned, Exception>, path: Result<BeanPath, Exception>)
    requires reflection.canMock(PersonClass)
    ensures gender == Success(Plain(Null))
    ensures path == Success(Node(Root(PersonClass), "gender", GenderClass))
  {
    var mocker := new Mocker(reflection);
    var current := new CurrentPath();
    var person := RootMock(mocker, Some(PersonClass));
    gender := mocker.Invoke(person.value, Accessor("getGender", GenderClass), current);
    path := Dollar(current);
    assert NameUtils.StripGetIsPrefixIfAny("getGender") == "gender";
  }

  /** `person.getAge()` returns the int default 0 and records the property with type Integer. */
  method CapturePrimitiveProperty(reflection: Reflection)
    returns (age: Result<Returned, Exception>, path: Result<BeanPath, Exception>)
    requires reflection.canMock(PersonClass)
    ensures age == Success(Plain(IntValue(0)))
    ensures path == Success(Node(Root(PersonClass), "age", IntegerClass))
  {
    var mocker := new Mocker(reflection);
    var current := new CurrentPath();
    var person := RootMock(mocker, Some(PersonClass));
    age := mocker.Invoke(person.value, Accessor("getAge", PrimitiveClass(IntType)), current);
    path := Dollar(current);
    assert NameUtils.StripGetIsPrefixIfAny("getAge") == "age";
  }

  /** `person.sleep()` returns null and records the property with type Void. */
  method CaptureVoidMethod(reflection: Reflection)
    returns (result: Result<Returned, Exception>, path: Result<BeanPath, Exception>)
    requires reflection.canMock(PersonClass)
    ensures result == Success(Plain(Null))
    ensures path == Success(Node(Root(PersonClass), "sleep", VoidClass))
  {
    var mocker := new Mocker(reflection);
    var current := new CurrentPath();
    var person := RootMock(mocker, Some(PersonClass));
    result := mocker.Invoke(person.value, Accessor("sleep", PrimitiveClass(VoidType)), current);
    path := Dollar(current);
  }

  /**
   * `person.getId()`, declared in `Identified<ID>` as returning the type variable, records
   * the actual type argument the resolver substitutes for it.
   */
  method CaptureGenericProperty(reflection: Reflection, id: Class)
    returns (path: Result<BeanPath, Exception>)
    requires reflection.canMock(PersonClass)
    requires reflection.resolveType(TokenOf(PersonClass), GenericSignature("ID")) == TokenOf(id)
    ensures path == Success(Node(Root(PersonClass), "id", Box(id)))
  {
    var mocker := new Mocker(reflection);
    var current := new CurrentPath();
    var person := RootMock(mocker, Some(PersonClass));
    var getId := MethodInfo("getId", Reference("java.lang.Object", "Object", false, false), GenericSignature("ID"));
    var result := mocker.Invoke(person.value, getId, current);
    path := Dollar(current);
    assert NameUtils.StripGetIsPrefixIfAny("getId") == "id";
  }

  /** `$$(person.getDocument().getIssuedBy())` is "document.issuedBy". */
  method CaptureDotDelimited(reflection: Reflection) returns (s: Result<string, Exception>)
    requires reflection.canMock(PersonClass) && reflection.canMock(DocumentClass)
    ensures s == Success("document.issuedBy")
  {
    var mocker := new Mocker(reflection);
    var current := new CurrentPath();
    var person := RootMock(mocker, Some(PersonClass));
    var document := mocker.Invoke(person.value, Accessor("getDocument", DocumentClass), current);
    var issuedBy := mocker.Invoke(document.value.mock, Accessor("getIssuedBy", StringClass), current);
    assert NameUtils.StripGetIsPrefixIfAny("getDocument") == "document";
    assert NameUtils.StripGetIsPrefixIfAny("getIssuedBy") == "issuedBy";
    s := DoubleDollar(current);
    DocumentIssuedByForm();
  }

  /** The dot-delimited form of `Person.document.issuedBy`. */
  lemma DocumentIssuedByForm()
    ensures Node(Node(Root(PersonClass), "document", DocumentClass), "issuedBy", StringClass).DotDelimitedString()
      == "document.issuedBy"
  {
    var path := Node(Node(Root(PersonClass), "document", DocumentClass), "issuedBy", StringClass);
    path.DotDelimitedOfNode();
    path.parent.DotDelimitedOfNode();
  }

  /** Two `root(Person.class)` calls hand back the same mock instance. */
  method MockCaching(reflection: Reflection)
    returns (first: Result<MockInstance, Exception>, second: Result<MockInstance, Exception>)
    requires reflection.canMock(PersonClass)
    ensures first.Success? && first == second
  {
    var mocker := new Mocker(reflection);
    first := RootMock(mocker, Some(PersonClass));
    second := RootMock(mocker, Some(PersonClass));
  }

  /** `$` with nothing captured raises the "no current path" exception. */
  method NoCurrentPath() returns (path: Result<BeanPath, Exception>)
    ensures path == Failure(NoCurrentPathException(NoCurrentPathMessage))
  {
    var current := new CurrentPath();
    path := Dollar(current);
  }

  /** The iteration order and the dot-delimited forms of `DataSource.connection.metaData`. */
  lemma PathForms()
    ensures var root := Root(DataSourceClass);
      var connection := Node(root, "connection", ConnectionClass);
      var path := Node(connection, "metaData", MetaDataClass);
      && path.Elements() == [root, connection, path]
      && path.DotDelimitedString() == "connection.metaData"
      && root.DotDelimitedString() == ""
  {
    var root := Root(DataSourceClass);
    var connection := Node(root, "connection", ConnectionClass);
    var path := Node(connection, "metaData", MetaDataClass);
    path.DotDelimitedOfNode();
    connection.DotDelimitedOfNode();
    root.DotDelimitedOfNode();
  }

  /** The debug form of `DataSource.connection.metaData`. */
  lemma DebugForm()
    ensures Node(Node(Root(DataSourceClass), "connection", ConnectionClass), "metaData", MetaDataClass).DebugString()
      == "<root>:DataSource/connection:Connection/metaData:DatabaseMetaData"
  {
    var path := Node(Node(Root(DataSourceClass), "connection", ConnectionClass), "metaData", MetaDataClass);
    ConnectionDebugForm();
    path.DebugStringOfNode();
    MetaDataSegmentLiteral();
  }

  /** The debug form of `DataSource.connection`. */
  lemma ConnectionDebugForm()
    ensures Node(Root(DataSourceClass), "connection", ConnectionClass).DebugString()
      == "<root>:DataSource/connection:Connection"
  {
    var root := Root(DataSourceClass);
    root.DebugStringOfNode();
    Node(root, "connection", ConnectionClass).DebugStringOfNode();
    ConnectionSegmentLiteral();
  }

  // The two string concatenations the debug forms above end in.

  lemma ConnectionSegmentLiteral()
    ensures "<root>:DataSource" + "/" + "connection" + ":" + "Connection" == "<root>:DataSource/connection:Connection"
  {
  }

  lemma MetaDataSegmentLiteral()
    ensures "<root>:DataSource/connection:Connection" + "/" + "metaData" + ":" + "DatabaseMetaData"
      == "<root>:DataSource/connection:Connection/metaData:DatabaseMetaData"
  {
  }
}
