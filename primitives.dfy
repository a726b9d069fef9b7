/** The table of primitive types, as in Primitives.java. */
module Primitives {
  import opened Wrappers
  import opened JavaTypes
  import Assert

  /** One constant of the `Prm` enumeration: a primitive class, its wrapper and its default value. */
  datatype Prm = Prm(clazz: Class, wrapperClass: Class, defaultValue: Value)

  /** `Prm.values()`, in declaration order. */
  const Table: seq<Prm> := [
    Prm(PrimitiveClass(BooleanType), BooleanClass, BooleanValue(false)),
    Prm(PrimitiveClass(CharType), CharacterClass, CharValue('\0')),
    Prm(PrimitiveClass(ByteType), ByteClass, ByteValue(0)),
    Prm(PrimitiveClass(ShortType), ShortClass, ShortValue(0)),
    Prm(PrimitiveClass(IntType), IntegerClass, IntValue(0)),
    Prm(PrimitiveClass(LongType), LongClass, LongValue(0)),
    Prm(PrimitiveClass(FloatType), FloatClass, FloatValue(0.0)),
    Prm(PrimitiveClass(DoubleType), DoubleClass, DoubleValue(0.0)),
    Prm(PrimitiveClass(VoidType), VoidClass, Null)
  ]

  /** Where the row of a primitive type sits in the table. */
  function RowOf(kind: PrimitiveType): (i: nat)
    ensures i < |Table| && Table[i].clazz == PrimitiveClass(kind)
  {
    match kind
    case BooleanType => 0
    case CharType => 1
    case ByteType => 2
    case ShortType => 3
    case IntType => 4
    case LongType => 5
    case FloatType => 6
    case DoubleType => 7
    case VoidType => 8
  }

  /** The IllegalArgumentException `findPrm` throws for an argument that has no row. */
  function Rejection(clazz: Option<Class>): (e: Exception)
    ensures e.IllegalArgumentException?
    ensures clazz.None? ==> e.message == "Parameter 'type' must not be null"
    ensures clazz.Some? ==> "Not a primitive: " <= e.message && Assert.Mentions(e.message, clazz.value.GetName())
  {
    if clazz.Some? then
      var message := "Not a primitive: " + clazz.value.ToString();
      var name := clazz.value.GetName();
      // the class's name ends the message
      assert name <= message[|message| - |name|..];
      IllegalArgumentException(message)
    else
      IllegalArgumentException("Parameter 'type' must not be null")
  }

  /**
   * `findPrm`: scans the table for the row whose clazz is `clazz`. It succeeds exactly for the
   * nine primitive classes, and reports a null or a non-primitive argument by its message.
   */
  method FindPrm(clazz: Option<Class>) returns (r: Result<Prm, Exception>)
    ensures r.Success? <==> clazz.Some? && clazz.value.IsPrimitive()
    ensures r.Success? ==> r.value in Table && r.value.clazz == clazz.value
    ensures clazz.None? ==>
      r == Failure(IllegalArgumentException("Parameter 'type' must not be null"))
    ensures clazz.Some? && !clazz.value.IsPrimitive() ==>
      r == Failure(IllegalArgumentException("Not a primitive: " + clazz.value.ToString()))
    ensures r.Failure? ==> r.error == Rejection(clazz)
  {
    var i := 0;
    while i < |Table|
      invariant 0 <= i <= |Table|
      invariant forall j :: 0 <= j < i ==> Some(Table[j].clazz) != clazz
    {
      if Some(Table[i].clazz) == clazz {
        return Success(Table[i]);
      }
      i := i + 1;
    }
    // a primitive class would have matched at its own row
    ghost var row := if clazz.Some? && clazz.value.IsPrimitive() then RowOf(clazz.value.kind) else 0;
    r := Failure(Rejection(clazz));
  }

  /** `getWrapperClass`: the wrapper of a primitive class, by the boxing conversion. */
  method GetWrapperClass(clazz: Option<Class>) returns (r: Result<Class, Exception>)
    ensures r.Success? <==> clazz.Some? && clazz.value.IsPrimitive()
    ensures r.Success? ==> r.value == BoxedClass(clazz.value.kind)
    ensures r.Failure? ==> r.error == Rejection(clazz)
  {
    var p := FindPrm(clazz);
    if p.Failure? {
      return Failure(p.error);
    }
    TableAgreesWithLanguage();
    r := Success(p.value.wrapperClass);
  }

  /** `getDefaultValue`: the initial value of a variable of a primitive clazz (null for void). */
  method GetDefaultValue(clazz: Option<Class>) returns (r: Result<Value, Exception>)
    ensures r.Success? <==> clazz.Some? && clazz.value.IsPrimitive()
    ensures r.Success? ==> r.value == DefaultValue(clazz.value.kind)
    ensures r.Failure? ==> r.error == Rejection(clazz)
  {
    var p := FindPrm(clazz);
    if p.Failure? {
      return Failure(p.error);
    }
    TableAgreesWithLanguage();
    r := Success(p.value.defaultValue);
  }

  /**
   * Every row pairs a primitive class with the wrapper the boxing conversion gives it and with
   * the default value the language gives it, and the row of each type is where `RowOf` says.
   */
  lemma TableAgreesWithLanguage()
    ensures forall i :: 0 <= i < |Table| ==>
      && Table[i].clazz.IsPrimitive()
      && RowOf(Table[i].clazz.kind) == i
      && Table[i].wrapperClass == BoxedClass(Table[i].clazz.kind)
      && Table[i].defaultValue == DefaultValue(Table[i].clazz.kind)
  {
  }

  /** No two rows are of the same type, so the row `findPrm` returns is the only one for its type. */
  lemma RowTypesAreDistinct()
    ensures forall i, j :: 0 <= i < j < |Table| ==> Table[i].clazz != Table[j].clazz
  {
    TableAgreesWithLanguage();
  }
}
