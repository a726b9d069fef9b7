/**
 * The small part of java.lang (and of Guava's TypeToken) that the library relies on,
 * treated as abstract descriptors: classes, primitive types, boxed default values,
 * 32-bit integer arithmetic and the exceptions the library throws.
 */
module JavaTypes {
  import opened Wrappers

  /** The nine primitive types of the Java language, `void` included. */
  datatype PrimitiveType =
    | BooleanType | CharType | ByteType | ShortType | IntType
    | LongType | FloatType | DoubleType | VoidType
  {
    /** The name `Class.getName()` reports for the primitive class object. */
    function Name(): string
    {
      match this
      case BooleanType => "boolean"
      case CharType => "char"
      case ByteType => "byte"
      case ShortType => "short"
      case IntType => "int"
      case LongType => "long"
      case FloatType => "float"
      case DoubleType => "double"
      case VoidType => "void"
    }
  }

  /**
   * A `java.lang.Class` object: either one of the nine primitive class objects, or a
   * reference type (class, interface, enum or array) described by its binary name,
   * its simple name and the two modifiers the library looks at.
   */
  datatype Class =
    | PrimitiveClass(kind: PrimitiveType)
    | Reference(name: string, simpleName: string, isInterface: bool, isFinal: bool)
  {
    /** `Class.isPrimitive()` */
    predicate IsPrimitive()
    {
      PrimitiveClass?
    }

    /** `Modifier.isFinal(getModifiers())`; the JVM reports primitive class objects as final. */
    predicate IsFinal()
    {
      PrimitiveClass? || isFinal
    }

    /** `Class.getName()` */
    function GetName(): string
    {
      if PrimitiveClass? then kind.Name() else name
    }

    /** `Class.getSimpleName()` */
    function GetSimpleName(): string
    {
      if PrimitiveClass? then kind.Name() else simpleName
    }

    /** `Class.toString()`: "interface " or "class " before the name, nothing for a primitive. */
    function ToString(): string
    {
      (if IsPrimitive() then "" else if isInterface then "interface " else "class ") + GetName()
    }
  }

  // The wrapper classes of java.lang; all of them are final classes.
  const BooleanClass := Reference("java.lang.Boolean", "Boolean", false, true)
  const CharacterClass := Reference("java.lang.Character", "Character", false, true)
  const ByteClass := Reference("java.lang.Byte", "Byte", false, true)
  const ShortClass := Reference("java.lang.Short", "Short", false, true)
  const IntegerClass := Reference("java.lang.Integer", "Integer", false, true)
  const LongClass := Reference("java.lang.Long", "Long", false, true)
  const FloatClass := Reference("java.lang.Float", "Float", false, true)
  const DoubleClass := Reference("java.lang.Double", "Double", false, true)
  const VoidClass := Reference("java.lang.Void", "Void", false, true)

  /**
   * The boxing conversion of the Java Language Specification, section 5.1.7,
   * extended by `void` to `java.lang.Void`.
   */
  function BoxedClass(kind: PrimitiveType): Class
  {
    match kind
    case BooleanType => BooleanClass
    case CharType => CharacterClass
    case ByteType => ByteClass
    case ShortType => ShortClass
    case IntType => IntegerClass
    case LongType => LongClass
    case FloatType => FloatClass
    case DoubleType => DoubleClass
    case VoidType => VoidClass
  }

  /** A class with every primitive class replaced by its wrapper. */
  function Box(c: Class): (r: Class)
    ensures !r.IsPrimitive()
    ensures c.IsPrimitive() ==> r.IsFinal() && r == BoxedClass(c.kind)
    ensures !c.IsPrimitive() ==> r == c
  {
    if c.IsPrimitive() then BoxedClass(c.kind) else c
  }

  /** A value as a Java method returning `Object` hands it back: null or a boxed primitive. */
  datatype Value =
    | Null
    | BooleanValue(b: bool)
    | CharValue(c: char)
    | ByteValue(i: int)
    | ShortValue(i: int)
    | IntValue(i: int)
    | LongValue(i: int)
    | FloatValue(f: real)
    | DoubleValue(f: real)

  /**
   * The initial value of a variable of a primitive type, from section 4.12.5 of the
   * Java Language Specification; `void` has no values, and null stands for it.
   */
  function DefaultValue(kind: PrimitiveType): Value
  {
    match kind
    case BooleanType => BooleanValue(false)
    case CharType => CharValue('\0')
    case ByteType => ByteValue(0)
    case ShortType => ShortValue(0)
    case IntType => IntValue(0)
    case LongType => LongValue(0)
    case FloatType => FloatValue(0.0)
    case DoubleType => DoubleValue(0.0)
    case VoidType => Null
  }

  /**
   * A Guava `TypeToken`: a raw class with the actual type arguments it is parameterised
   * with (empty for `TypeToken.of(Class)`).
   */
  datatype TypeToken = TypeToken(raw: Class, typeArguments: seq<TypeToken>)
  {
    /** `TypeToken.getRawType()` */
    function GetRawType(): Class
    {
      raw
    }
  }

  /** `TypeToken.of(Class)` */
  function TokenOf(c: Class): (t: TypeToken)
    ensures t.GetRawType() == c && t.typeArguments == []
  {
    TypeToken(c, [])
  }

  /**
   * The generic return type of a method (`Method.getGenericReturnType()`): the raw class
   * itself when the declaration mentions no type variable, otherwise a generic signature
   * that only `TypeToken.resolveType` can interpret.
   */
  datatype GenericType = ClassType(c: Class) | GenericSignature(signature: string)

  /** The values of Java's `int`. */
  type Int32 = x: int | -0x8000_0000 <= x < 0x8000_0000

  /** Two's-complement truncation of an unbounded integer to 32 bits, as `int` arithmetic does. */
  function Wrap32(x: int): Int32
  {
    ((x + 0x8000_0000) % 0x1_0000_0000) - 0x8000_0000
  }

  /** Adding a multiple of 2^32 does not change the truncated value. */
  lemma {:induction false} Wrap32IsPeriodic(x: int, k: int)
    ensures Wrap32(x + 0x1_0000_0000 * k) == Wrap32(x)
  {
    var a := x + 0x8000_0000;
    assert a + 0x1_0000_0000 * k == 0x1_0000_0000 * (a / 0x1_0000_0000 + k) + a % 0x1_0000_0000;
  }

  /**
   * Truncating after every step of `31 * h + y`, as Java's `int` arithmetic does, gives the
   * same value as computing without bound and truncating once.
   */
  lemma Wrap32OfHornerStep(x: int, y: int)
    ensures Wrap32(31 * Wrap32(x) + y) == Wrap32(31 * x + y)
  {
    var q := (x + 0x8000_0000) / 0x1_0000_0000;
    assert Wrap32(x) == x - 0x1_0000_0000 * q;
    Wrap32IsPeriodic(31 * x + y, -31 * q);
  }

  /** The exceptions the core throws. */
  datatype Exception =
    | IllegalArgumentException(message: string)
      /** BeanPathMagicException raised by `$` when no path is being captured. */
    | NoCurrentPathException(message: string)
      /** BeanPathMagicException wrapping a failure of the mock generator for `mockType`. */
    | MockCreationException(mockType: TypeToken)

  /** The message of the "no current path" BeanPathMagicException. */
  const NoCurrentPathMessage := "No current path. Probably your call chain contains a final method."
}
