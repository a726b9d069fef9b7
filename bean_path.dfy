/** The immutable property path of BeanPath.java. */
module BeanPaths {
  import opened Wrappers
  import opened JavaTypes
  import Assert

  /** The pseudo name every root carries. */
  const RootName := "<root>"

  /** `String.join(separator, parts)`: the parts with one separator between neighbours. */
  function Join(parts: seq<string>, separator: string): string
  {
    if |parts| == 0 then ""
    else if |parts| == 1 then parts[0]
    else parts[0] + separator + Join(parts[1..], separator)
  }

  /** Joining one more part at the end adds the separator and the part. */
  lemma {:induction false} JoinSnoc(parts: seq<string>, last: string, separator: string)
    requires |parts| > 0
    ensures Join(parts + [last], separator) == Join(parts, separator) + separator + last
  {
    if |parts| == 1 {
      assert parts + [last] == [parts[0], last];
      assert [parts[0], last][1..] == [last];
    } else {
      assert (parts + [last])[1..] == parts[1..] + [last];
      JoinSnoc(parts[1..], last, separator);
    }
  }

  /**
   * A chain of bean properties: a root standing for the bean (pseudo name "<root>") and
   * one node per property, each linked to the path it extends.
   */
  datatype BeanPath =
    | Root(clazz: Class)
    | Node(parent: BeanPath, name: string, clazz: Class)
  {
    /** `BeanPath.root(type)`: the root path of a type; a null type is rejected. */
    static function RootOf(clazz: Option<Class>): (r: Result<BeanPath, Exception>)
      ensures clazz.None? ==>
        r == Failure(IllegalArgumentException("Argument 'type' must not be null"))
      ensures clazz.Some? ==> r.Success? && r.value.GetType() == clazz.value
      ensures r.Success? ==>
        && r.value.IsRoot() && !r.value.HasParent() && r.value.GetParent() == None
        && r.value.GetName() == RootName && r.value.GetRoot() == r.value
    {
      var t := Assert.NotNull(clazz, Some("type"));
      assert ' ' !in "type";
      assert "Argument '" + "type" + "' must not be null" == "Argument 'type' must not be null";
      if t.Failure? then Failure(t.error) else Success(Root(t.value))
    }

    /**
     * `append(name, type)`: a new path with this one as its parent; the name is checked
     * before the type.
     */
    function Append(name: Option<string>, clazz: Option<Class>): (r: Result<BeanPath, Exception>)
      ensures name.None? ==>
        r == Failure(IllegalArgumentException("Argument 'name' must not be null"))
      ensures name.Some? && clazz.None? ==>
        r == Failure(IllegalArgumentException("Argument 'type' must not be null"))
      ensures name.Some? && clazz.Some? ==>
        && r.Success?
        && r.value.GetParent() == Some(this)
        && r.value.GetName() == name.value
        && r.value.GetType() == clazz.value
        && r.value.Depth() == Depth() + 1
    {
      var n := Assert.NotNull(name, Some("name"));
      var t := Assert.NotNull(clazz, Some("type"));
      assert ' ' !in "name" && ' ' !in "type";
      assert "Argument '" + "name" + "' must not be null" == "Argument 'name' must not be null";
      assert "Argument '" + "type" + "' must not be null" == "Argument 'type' must not be null";
      if n.Failure? then Failure(n.error)
      else if t.Failure? then Failure(t.error)
      else Success(Node(this, n.value, t.value))
    }

    /** `isRoot()` */
    predicate IsRoot()
      ensures IsRoot() <==> GetParent().None?
    {
      Root?
    }

    /** `hasParent()` */
    predicate HasParent()
      ensures HasParent() <==> GetParent().Some?
      ensures HasParent() <==> !IsRoot()
    {
      Node?
    }

    /** `getParent()`: the path without its last property, null for a root. */
    function GetParent(): (r: Option<BeanPath>)
      ensures Root? <==> r.None?
      ensures r.Some? ==> r.value.Depth() + 1 == Depth() && Node(r.value, GetName(), GetType()) == this
    {
      if Root? then None else Some(parent)
    }

    /** `getName()`: the name of the last property, the pseudo name for a root. */
    function GetName(): string
    {
      if Root? then RootName else name
    }

    /** `getType()`: the type of the last property, the bean's type for a root. */
    function GetType(): Class
    {
      clazz
    }

    /** The number of properties in the chain. */
    function Depth(): nat
    {
      if Root? then 0 else parent.Depth() + 1
    }

    /** `getRoot()`: the root reached by following parents, the path itself when it is one. */
    function GetRoot(): (r: BeanPath)
      ensures r.IsRoot()
      ensures IsRoot() ==> r == this
      ensures HasParent() ==> r == parent.GetRoot()
    {
      if Root? then this else parent.GetRoot()
    }

    /**
     * The elements `iterator()` yields: every path from the root to this one. There is one
     * more than there are properties, the first is the root, the last is this path, and each
     * one after the first has its predecessor as parent.
     */
    function Elements(): (r: seq<BeanPath>)
      ensures |r| == Depth() + 1
      ensures r[0] == GetRoot() && r[|r| - 1] == this
      ensures forall i :: 0 < i < |r| ==> r[i].GetParent() == Some(r[i - 1])
    {
      if Root? then [this] else parent.Elements() + [this]
    }

    /** The names of the properties below the root, in order. */
    function PropertyNames(): seq<string>
    {
      NamesOf(Elements()[1..])
    }

    /** `name:SimpleTypeName` for one path element. */
    function Segment(): string
    {
      GetName() + ":" + clazz.GetSimpleName()
    }

    /** The segments of all elements, root first. */
    function Segments(): seq<string>
    {
      SegmentsOf(Elements())
    }

    /** What `toDotDelimitedString()` promises: the property names joined by dots. */
    function DotDelimitedString(): string
    {
      Join(PropertyNames(), ".")
    }

    /** What `toString()` produces: the segments joined by a single "/". */
    function DebugString(): string
    {
      Join(Segments(), "/")
    }

    /**
     * `equals(obj)`: false for null; otherwise both have no parent or equal parents, and
     * name and type agree.
     */
    function Equals(obj: Option<BeanPath>): (b: bool)
      ensures obj.None? ==> !b
      decreases this
    {
      obj.Some? &&
      var that := obj.value;
      && (if IsRoot() || that.IsRoot() then IsRoot() == that.IsRoot()
          else parent.Equals(Some(that.parent)))
      && GetName() == that.GetName()
      && clazz == that.clazz
    }

    /**
     * `hashCode()`: `31 * (31 * parentHash + nameHash) + typeHash` in `int` arithmetic, with
     * parentHash 0 at the root. The hash codes of strings and classes come from the JVM.
     */
    function HashCode(stringHash: string -> Int32, classHash: Class -> Int32): (h: Int32)
      ensures h == Wrap32(UnboundedHash(stringHash, classHash))
    {
      var parentHash: int := if Root? then 0 else parent.HashCode(stringHash, classHash);
      // the overflowing steps agree with one truncation of the unbounded recurrence
      var unboundedParent := if Root? then 0 else parent.UnboundedHash(stringHash, classHash);
      assert parentHash == Wrap32(unboundedParent);
      Wrap32OfHornerStep(unboundedParent, stringHash(GetName()));
      Wrap32OfHornerStep(31 * unboundedParent + stringHash(GetName()), classHash(clazz));
      var h := Wrap32(31 * parentHash + stringHash(GetName()));
      Wrap32(31 * h + classHash(clazz))
    }

    /** The same recurrence as `HashCode` over unbounded integers. */
    function UnboundedHash(stringHash: string -> Int32, classHash: Class -> Int32): int
    {
      var parentHash := if Root? then 0 else parent.UnboundedHash(stringHash, classHash);
      31 * (31 * parentHash + stringHash(GetName())) + classHash(clazz)
    }

    /** `toCollection(collection)`: adds the elements, root first, to the collection. */
    method ToCollection(collection: PathCollection)
      modifies collection
      ensures collection.items == old(collection.items) + Elements()
      decreases this
    {
      if HasParent() {
        parent.ToCollection(collection);
      }
      collection.Add(this);
    }

    /** `iterator()`: the elements of a fresh collection filled by `toCollection`. */
    method Iterator() returns (elements: seq<BeanPath>)
      ensures elements == Elements()
    {
      var collection := new PathCollection();
      ToCollection(collection);
      elements := collection.items;
      assert elements == [] + Elements();
    }

    /** `toDotDelimitedString(sb)`: appends the property names, dot-delimited, to the builder. */
    method AppendDotDelimited(sb: StringBuilder)
      modifies sb
      ensures sb.contents == old(sb.contents) + DotDelimitedString()
      decreases this
    {
      if IsRoot() {
        return;
      }
      PropertyNamesOfNode();
      if GetRoot() != parent {
        ParentIsRootIffGetRoot();
        parent.AppendDotDelimited(sb);
        sb.Append(".");
        JoinSnoc(parent.PropertyNames(), name, ".");
      } else {
        assert parent.PropertyNames() == [];
      }
      sb.Append(name);
    }

    /** `toDotDelimitedString()`: "" for a root, otherwise the property names joined by dots. */
    method ToDotDelimitedString() returns (s: string)
      ensures s == DotDelimitedString()
      ensures IsRoot() ==> s == ""
    {
      var sb := new StringBuilder();
      AppendDotDelimited(sb);
      s := sb.contents;
    }

    /** `toString(sb)`: appends the `name:SimpleTypeName` segments, "/"-delimited, to the builder. */
    method AppendDebug(sb: StringBuilder)
      modifies sb
      ensures sb.contents == old(sb.contents) + DebugString()
      decreases this
    {
      SegmentsOfNode();
      if HasParent() {
        parent.AppendDebug(sb);
        sb.Append("/");
        JoinSnoc(parent.Segments(), Segment(), "/");
      }
      sb.Append(GetName());
      sb.Append(":");
      sb.Append(clazz.GetSimpleName());
    }

    /** `toString()`: the debug form of the path. */
    method ToString() returns (s: string)
      ensures s == DebugString()
    {
      var sb := new StringBuilder();
      AppendDebug(sb);
      s := sb.contents;
    }

    /** A node's property names are its parent's followed by its own name. */
    lemma {:induction false} PropertyNamesOfNode()
      ensures |PropertyNames()| == Depth()
      ensures IsRoot() ==> PropertyNames() == []
      ensures HasParent() ==> PropertyNames() == parent.PropertyNames() + [name]
    {
      if HasParent() {
        var ps := parent.Elements();
        assert Elements()[1..] == ps[1..] + [this];
        parent.PropertyNamesOfNode();
      }
    }

    /** A node's segments are its parent's followed by its own. */
    lemma {:induction false} SegmentsOfNode()
      ensures IsRoot() ==> Segments() == [Segment()]
      ensures HasParent() ==> Segments() == parent.Segments() + [Segment()]
    {
      if HasParent() {
        assert Elements() == parent.Elements() + [this];
      }
    }

    /**
     * The dot-delimited form one property at a time: empty at a root, the bare name directly
     * below the root, and otherwise the parent's form, a dot and the name.
     */
    lemma DotDelimitedOfNode()
      ensures IsRoot() ==> DotDelimitedString() == ""
      ensures HasParent() && parent.IsRoot() ==> DotDelimitedString() == name
      ensures HasParent() && !parent.IsRoot() ==>
        DotDelimitedString() == parent.DotDelimitedString() + "." + name
    {
      PropertyNamesOfNode();
      if HasParent() {
        parent.PropertyNamesOfNode();
        if !parent.IsRoot() {
          JoinSnoc(parent.PropertyNames(), name, ".");
        }
      }
    }

    /** The debug form one element at a time: the root's segment, then "/" and one segment per property. */
    lemma DebugStringOfNode()
      ensures IsRoot() ==> DebugString() == RootName + ":" + clazz.GetSimpleName()
      ensures HasParent() ==> DebugString() == parent.DebugString() + "/" + name + ":" + clazz.GetSimpleName()
    {
      SegmentsOfNode();
      if HasParent() {
        parent.SegmentsOfNode();
        JoinSnoc(parent.Segments(), Segment(), "/");
      }
    }

    /**
     * `getName()` and `getType()` describe the tail of the chain: the name is the last property
     * name (the pseudo name at a root), and the last debug segment is made of the two.
     */
    lemma {:induction false} NameAndTypeAreTheTail()
      ensures IsRoot() ==> GetName() == RootName
      ensures HasParent() ==> GetName() == PropertyNames()[Depth() - 1]
      ensures Segments()[Depth()] == GetName() + ":" + GetType().GetSimpleName()
      ensures Elements()[Depth()].GetType() == GetType()
    {
      PropertyNamesOfNode();
      SegmentsOfNode();
    }

    /** `getRoot()` is idempotent. */
    lemma GetRootIsIdempotent()
      ensures GetRoot().GetRoot() == GetRoot()
    {
    }

    /**
     * The reference comparison `getRoot() != parent` in `toDotDelimitedString(sb)` asks
     * whether the parent is the root.
     */
    lemma ParentIsRootIffGetRoot()
      requires HasParent()
      ensures GetRoot() == parent <==> parent.IsRoot()
    {
    }
  }

  /** The names of the given paths, in order. */
  function NamesOf(es: seq<BeanPath>): (r: seq<string>)
    ensures |r| == |es|
    ensures forall i :: 0 <= i < |es| ==> r[i] == es[i].GetName()
  {
    if es == [] then [] else NamesOf(es[..|es| - 1]) + [es[|es| - 1].GetName()]
  }

  /** The `name:SimpleTypeName` segments of the given paths, in order. */
  function SegmentsOf(es: seq<BeanPath>): (r: seq<string>)
    ensures |r| == |es|
  {
    if es == [] then [] else SegmentsOf(es[..|es| - 1]) + [es[|es| - 1].Segment()]
  }

  /** The i-th segment is the segment of the i-th path. */
  lemma {:induction false} SegmentsOfIsElementwise(es: seq<BeanPath>)
    ensures forall i :: 0 <= i < |es| ==> SegmentsOf(es)[i] == es[i].Segment()
  {
    if es != [] {
      SegmentsOfIsElementwise(es[..|es| - 1]);
    }
  }

  /**
   * The transient fields of one BeanPath object, which memoise its derived forms: each form is
   * computed on first request and kept, and the hash code is recomputed for as long as the kept
   * value is 0. The hash codes of strings and classes come from the JVM.
   */
  class CachedForms {
    const path: BeanPath
    const stringHash: string -> Int32
    const classHash: Class -> Int32
    var cachedDotDelimitedString: Option<string>
    var cachedHashCode: Int32
    var cachedToString: Option<string>

    /** Whatever has been kept is the form the path defines. */
    ghost predicate Valid()
      reads this
    {
      && (cachedDotDelimitedString.Some? ==> cachedDotDelimitedString.value == path.DotDelimitedString())
      && (cachedHashCode != 0 ==> cachedHashCode == path.HashCode(stringHash, classHash))
      && (cachedToString.Some? ==> cachedToString.value == path.DebugString())
    }

    constructor (path: BeanPath, stringHash: string -> Int32, classHash: Class -> Int32)
      ensures Valid()
      ensures this.path == path && this.stringHash == stringHash && this.classHash == classHash
      ensures cachedDotDelimitedString == None && cachedHashCode == 0 && cachedToString == None
    {
      this.path := path;
      this.stringHash := stringHash;
      this.classHash := classHash;
      cachedDotDelimitedString := None;
      cachedHashCode := 0;
      cachedToString := None;
    }

    /** `toDotDelimitedString()`: the kept form, or the form built now and kept. */
    method ToDotDelimitedString() returns (s: string)
      requires Valid()
      modifies this
      ensures Valid()
      ensures s == path.DotDelimitedString()
      ensures cachedDotDelimitedString == Some(s)
      ensures cachedHashCode == old(cachedHashCode) && cachedToString == old(cachedToString)
    {
      var dds := cachedDotDelimitedString;
      if dds.None? {
        var built := path.ToDotDelimitedString();
        dds := Some(built);
        cachedDotDelimitedString := dds;
      }
      s := dds.value;
    }

    /**
     * `hashCode()`: the kept hash code, or, while it is 0, `31 * (31 * parentHash + nameHash)
     * + typeHash` computed now in `int` arithmetic and kept.
     */
    method HashCode() returns (h: Int32)
      requires Valid()
      modifies this
      ensures Valid()
      ensures h == path.HashCode(stringHash, classHash)
      ensures cachedHashCode == h
      ensures cachedDotDelimitedString == old(cachedDotDelimitedString) && cachedToString == old(cachedToString)
    {
      var hc := cachedHashCode;
      if hc == 0 {
        hc := if path.HasParent() then path.parent.HashCode(stringHash, classHash) else 0;
        hc := Wrap32(31 * hc + stringHash(path.GetName()));
        hc := Wrap32(31 * hc + classHash(path.clazz));
        cachedHashCode := hc;
      }
      h := hc;
    }

    /** `toString()`: the kept debug form, or the form built now and kept. */
    method ToString() returns (s: string)
      requires Valid()
      modifies this
      ensures Valid()
      ensures s == path.DebugString()
      ensures cachedToString == Some(s)
      ensures cachedDotDelimitedString == old(cachedDotDelimitedString) && cachedHashCode == old(cachedHashCode)
    {
      var ts := cachedToString;
      if ts.None? {
        var built := path.ToString();
        ts := Some(built);
        cachedToString := ts;
      }
      s := ts.value;
    }
  }

  /** The `LinkedList` that `iterator()` fills. */
  class PathCollection {
    var items: seq<BeanPath>

    constructor ()
      ensures items == []
    {
      items := [];
    }

    /** `Collection.add` */
    method Add(p: BeanPath)
      modifies this
      ensures items == old(items) + [p]
    {
      items := items + [p];
    }
  }

  /** The `StringBuilder` the string forms are built in. */
  class StringBuilder {
    var contents: string

    constructor ()
      ensures contents == ""
    {
      contents := "";
    }

    /** `StringBuilder.append` */
    method Append(s: string)
      modifies this
      ensures contents == old(contents) + s
    {
      contents := contents + s;
    }
  }

  /** Equality is structural: two paths are equal exactly when they are the same value. */
  lemma {:induction false} EqualsIsStructural(a: BeanPath, b: BeanPath)
    ensures a.Equals(Some(b)) <==> a == b
    decreases a
  {
    if a.Node? && b.Node? {
      EqualsIsStructural(a.parent, b.parent);
    }
  }

  /** `equals` is reflexive, symmetric and transitive. */
  lemma EqualsIsEquivalence(a: BeanPath, b: BeanPath, c: BeanPath)
    ensures a.Equals(Some(a))
    ensures a.Equals(Some(b)) ==> b.Equals(Some(a))
    ensures a.Equals(Some(b)) && b.Equals(Some(c)) ==> a.Equals(Some(c))
  {
    EqualsIsStructural(a, a);
    EqualsIsStructural(a, b);
    EqualsIsStructural(b, a);
    EqualsIsStructural(b, c);
    EqualsIsStructural(a, c);
  }

  /** Equal paths have equal hash codes, whatever hash codes the JVM gives strings and classes. */
  lemma HashCodeIsConsistentWithEquals(
    a: BeanPath, b: BeanPath, stringHash: string -> Int32, classHash: Class -> Int32)
    requires a.Equals(Some(b))
    ensures a.HashCode(stringHash, classHash) == b.HashCode(stringHash, classHash)
  {
    EqualsIsStructural(a, b);
  }
}
