/**
 * The structure of generated source, standing for the source-emission
 * library's specs: a file holds one type, a type holds fields and methods
 * in the order they were added, a method holds statements.
 */
module Poet {
  import opened Wrappers

  datatype Modifier = Public | Protected | Private | Abstract | Static | Final

  /** A class name: package and simple name. */
  datatype ClassName = ClassName(packageName: string, simpleName: string)
  {
    /** The canonical name, as a type reference renders it. */
    function Canonical(): string {
      if packageName == "" then simpleName else packageName + "." + simpleName
    }
  }

  datatype Param = Param(typeName: string, name: string)

  /**
   * One fragment of the code block that becomes the body of a generated
   * `toString`: the opening `return "" +`, the type's title, one entry per
   * field, and the closing brace.
   */
  datatype ToStringPart = Opening | Title(typeName: string) | Entry(field: string) | Closing

  /** The statements the generators emit. */
  datatype Statement =
    | AssignSuper(field: string)                  // super.f=f
    | ReturnThis                                  // return this
    | DeclareNew(typeName: string, local: string) // T v = new T()
    | CopyToLocal(local: string, field: string)   // v.f = f;  (a raw code line)
    | ReturnName(name: string)                    // return x
    | ReturnConcat(parts: seq<ToStringPart>)      // the toString code block
    | IfNullAssignNew(slot: string, typeName: string) // if (slot == null) { slot = new T(); }

  datatype MethodSpec = MethodSpec(
    name: string,
    isConstructor: bool,
    modifiers: set<Modifier>,
    annotations: seq<string>,
    returnType: Option<string>,
    params: seq<Param>,
    body: seq<Statement>)

  datatype FieldSpec = FieldSpec(
    typeName: string,
    name: string,
    modifiers: set<Modifier>,
    initializer: Option<string>)

  datatype TypeSpec = TypeSpec(
    name: string,
    modifiers: set<Modifier>,
    superclass: Option<string>,
    superinterfaces: seq<string>,
    fields: seq<FieldSpec>,
    methods: seq<MethodSpec>)
  {
    function AddField(f: FieldSpec): TypeSpec { this.(fields := fields + [f]) }
    function AddMethod(m: MethodSpec): TypeSpec { this.(methods := methods + [m]) }
  }

  /** One generated source file: a package and the type it declares. */
  datatype JavaFile = JavaFile(packageName: string, typeSpec: TypeSpec)

  const ConstructorName := "<init>"
  const StringType := "java.lang.String"
  const OverrideAnnotation := "java.lang.Override"
  const SerializableType := "java.io.Serializable"

  /**
   * What one fragment contributes to the string the generated `toString`
   * returns, given the string form of each field's value.
   */
  function PartValue(p: ToStringPart, values: string -> string): string {
    match p
    case Opening => ""
    case Title(n) => n + " {"
    case Entry(f) => f + "=" + values(f) + ","
    case Closing => "}"
  }

  function PartsValue(ps: seq<ToStringPart>, values: string -> string): string {
    if ps == [] then "" else PartsValue(ps[..|ps| - 1], values) + PartValue(ps[|ps| - 1], values)
  }
}
