/**
 * The parts of the host compiler's element model that the processor reads:
 * elements with their enclosing chain, the kind of a member's type, and an
 * annotated class with its enclosed members in declaration order.
 */
module Elements {
  import opened Wrappers

  /** The kind of an element, as far as the processor distinguishes them. */
  datatype ElementKind =
    | Package | Class | Interface | Enum | AnnotationType
    | Field | Method | Constructor | OtherElement

  /**
   * An element with the chain of elements that enclose it. `name` is the
   * simple name; for a package it is the package's qualified name, the only
   * name of a package the processor reads. A top-level element of the chain
   * has no enclosing element.
   */
  datatype Element = Element(kind: ElementKind, name: string, enclosing: Option<Element>)

  /** The kind of a type, one constructor per kind the host distinguishes. */
  datatype TypeKind =
    | Boolean | Byte | Short | Int | Long | Char | Float | Double
    | Void | NoType | NullType | Array | Declared | ErrorType | TypeVar
    | Wildcard | PackageType | Executable | Union | Intersection | ModuleType | OtherType
  {
    /** The eight primitive kinds. */
    predicate IsPrimitive() {
      match this
      case Boolean | Byte | Short | Int | Long | Char | Float | Double => true
      case _ => false
    }
  }

  /**
   * One enclosed element of an annotated class: its simple name, the kind of
   * its type (a field of type `int` is `Int`, a method or constructor is
   * `Executable`, a field of type `String[]` is `Array`) and the rendered
   * type name.
   */
  datatype Member = Member(name: string, kind: TypeKind, typeName: string)

  /**
   * An annotated class: its element (simple name and enclosing chain), its
   * type rendered as a type name, and its enclosed elements in declaration order.
   */
  datatype TypeElement = TypeElement(element: Element, typeName: string, members: seq<Member>)

  /**
   * What a generator throws: a substring out of range, or the emitting
   * library's class builder refusing a name that is not a Java identifier.
   */
  datatype GenerationError = StringIndexOutOfBounds | IllegalArgument
}
