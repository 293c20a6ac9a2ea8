/**
 * The Singleton generator: one file per annotated class, declaring a public
 * subclass with a private static `instance` slot, a private constructor and
 * a public static `getInstance` accessor that creates the instance lazily.
 */
module SingletonGenerator {
  import opened Wrappers
  import opened Elements
  import opened Poet
  import Utils

  const PatternName := "Singleton"
  const CreatedClassSuffix := "_"
  const GetInstanceMethodName := "getInstance"
  const InstanceFieldName := "instance"

  /** The generated class's name: the annotated class's simple name followed by the suffix. */
  function TargetFileName(t: TypeElement): (r: string)
    ensures |r| == |t.element.name| + 1
    ensures r[..|t.element.name|] == t.element.name && r[|t.element.name|] == '_'
  {
    t.element.name + CreatedClassSuffix
  }

  /** The `instance` slot: of the annotated type, private and static (not final, no initializer). */
  function GetInstanceFieldSpec(typeName: string): (r: FieldSpec)
    ensures r.name == InstanceFieldName && r.typeName == typeName
    ensures Static in r.modifiers && Private in r.modifiers && Final !in r.modifiers && Public !in r.modifiers
    ensures r.initializer == None
  {
    FieldSpec(typeName, InstanceFieldName, {Private, Static}, None)
  }

  /** The private no-argument constructor. */
  function GetConstructorSpec(): (r: MethodSpec)
    ensures r.isConstructor && r.modifiers == {Private} && r.params == [] && r.body == []
  {
    MethodSpec(ConstructorName, true, {Private}, [], None, [], [])
  }

  /**
   * `getInstance()`: public static, returns the annotated type; when the slot
   * is null it stores a new instance of the annotated type, then returns the slot.
   */
  function GetInstanceMethodSpec(typeName: string): (r: MethodSpec)
    ensures r.name == GetInstanceMethodName && !r.isConstructor
    ensures r.modifiers == {Public, Static} && r.returnType == Some(typeName) && r.params == []
  {
    MethodSpec(GetInstanceMethodName, false, {Public, Static}, [], Some(typeName), [],
      [IfNullAssignNew(InstanceFieldName, typeName), ReturnName(InstanceFieldName)])
  }

  /** The public class extending the annotated type: the field, then the constructor, then `getInstance`. */
  function GetClassTypeSpec(typeName: string, className: ClassName): (r: TypeSpec)
    ensures r.name == className.simpleName && r.modifiers == {Public} && r.superclass == Some(typeName)
    ensures r.fields == [GetInstanceFieldSpec(typeName)]
    ensures |r.methods| == 2 && r.methods[0].isConstructor && r.methods[1] == GetInstanceMethodSpec(typeName)
  {
    TypeSpec(className.simpleName, {Public}, Some(typeName), [],
      [GetInstanceFieldSpec(typeName)],
      [GetConstructorSpec(), GetInstanceMethodSpec(typeName)])
  }

  /** `generate`: the one file for an annotated class, in the class's package. */
  function Generate(t: TypeElement): (f: JavaFile)
    requires Utils.ReachesPackage(t.element)
    ensures f.packageName == Utils.NearestPackage(t.element).name
    ensures f.typeSpec.name == TargetFileName(t) && f.typeSpec.superclass == Some(t.typeName)
  {
    var pkg := Utils.NearestPackage(t.element).name;
    JavaFile(pkg, GetClassTypeSpec(t.typeName, ClassName(pkg, TargetFileName(t))))
  }

  /**
   * The generated file: in the annotated class's package, one public class
   * named after it with the suffix, extending the annotated type, whose
   * members are exactly the `instance` field (of the annotated type, private
   * and static, not final, no initializer), the private constructor and the
   * public static `getInstance` returning the annotated type.
   */
  lemma GeneratedShape(t: TypeElement)
    requires Utils.ReachesPackage(t.element)
    ensures var f := Generate(t);
      var c := f.typeSpec;
      f.packageName == Utils.NearestPackage(t.element).name &&
      c.name == t.element.name + "_" && c.modifiers == {Public} && c.superclass == Some(t.typeName) &&
      c.superinterfaces == [] &&
      |c.fields| == 1 && c.fields[0].name == "instance" && c.fields[0].typeName == t.typeName &&
      c.fields[0].modifiers == {Private, Static} && Final !in c.fields[0].modifiers && c.fields[0].initializer == None &&
      |c.methods| == 2 &&
      c.methods[0].isConstructor && c.methods[0].modifiers == {Private} && c.methods[0].params == [] &&
      c.methods[1].name == "getInstance" && !c.methods[1].isConstructor &&
      c.methods[1].modifiers == {Public, Static} && c.methods[1].returnType == Some(t.typeName) &&
      c.methods[1].params == [] &&
      c.methods[1].body == [IfNullAssignNew("instance", t.typeName), ReturnName("instance")]
  {}

  // ---------------------------------------------------------------------
  // What the emitted accessor does
  // ---------------------------------------------------------------------

  /**
   * One run of an emitted accessor body: the value it returns (None is
   * null), the slot afterwards, and whether it constructed an object.
   */
  datatype AccessorRun<O> = AccessorRun(answer: Option<O>, slot: Option<O>, constructed: bool)

  /**
   * Runs an accessor body on the static `instance` slot: `if (instance ==
   * null) instance = new T();` stores `made`, the object `new T()` creates,
   * when the slot is empty; `return instance` ends the run with the slot's
   * value. Any other statement does not occur in the accessor.
   */
  function RunAccessor<O>(body: seq<Statement>, slot: Option<O>, made: O, constructed: bool): Option<AccessorRun<O>> {
    if body == [] then None
    else match body[0]
      case IfNullAssignNew(f, _) =>
        if f != InstanceFieldName then None
        else if slot == None then RunAccessor(body[1..], Some(made), made, true)
        else RunAccessor(body[1..], slot, made, constructed)
      case ReturnName(f) => if f == InstanceFieldName then Some(AccessorRun(slot, slot, constructed)) else None
      case _ => None
  }

  /**
   * The emitted `getInstance` never returns null: on an empty slot it
   * constructs, stores and returns the new object; on a set slot it returns
   * the stored object and constructs nothing.
   */
  lemma AccessorEffect<O>(typeName: string, slot: Option<O>, made: O)
    ensures var r := RunAccessor(GetInstanceMethodSpec(typeName).body, slot, made, false);
      r.Some? && r.value.answer.Some? && r.value.slot == r.value.answer &&
      (slot == None ==> r.value.answer == Some(made) && r.value.constructed) &&
      (slot != None ==> r.value.answer == slot && !r.value.constructed)
  {
    var body := GetInstanceMethodSpec(typeName).body;
    assert body[1..] == [ReturnName(InstanceFieldName)];
  }

  /** An object of the annotated type, as `new T()` creates it. */
  class Instance {
    constructor () {}
  }

  /**
   * The static `instance` slot of the class generated for the annotated type
   * `typeName`, with the emitted `getInstance` as a method: each call does
   * what running the emitted body does. `constructions` counts the `new T()` calls.
   */
  class StaticSlot {
    const typeName: string
    var instance: Instance?
    ghost var constructions: nat

    /** The slot is set exactly when one instance has been constructed. */
    ghost predicate Valid()
      reads this
    {
      constructions == if instance == null then 0 else 1
    }

    /** Class initialization: a static field without initializer starts out null. */
    constructor (typeName: string)
      ensures this.typeName == typeName && Valid() && instance == null && constructions == 0
    {
      this.typeName := typeName;
      instance := null;
      constructions := 0;
    }

    /**
     * `getInstance()`: a call on an unset slot constructs and stores a new
     * instance; a call on a set slot returns the stored one. Either way the
     * slot is set afterwards and holds the result.
     */
    method GetInstance() returns (r: Instance)
      requires Valid()
      modifies this
      ensures Valid() && instance == r && constructions <= 1
      ensures var prior: Option<Instance> := if old(instance) == null then None else Some(old(instance));
        RunAccessor(GetInstanceMethodSpec(typeName).body, prior, r, false) ==
          Some(AccessorRun(Some(r), Some(r), old(instance) == null))
      ensures old(instance) == null ==> fresh(r) && constructions == old(constructions) + 1
      ensures old(instance) != null ==> r == old(instance) && constructions == old(constructions)
    {
      if instance == null {
        instance := new Instance();
        constructions := constructions + 1;
      }
      r := instance;
    }
  }

  /**
   * Any sequence of `n` sequential calls: at most one construction in all,
   * every call returns the same object, and an instance already stored is
   * the one returned.
   */
  method CallRepeatedly(slot: StaticSlot, n: nat) returns (results: seq<Instance>)
    requires slot.Valid()
    modifies slot
    ensures slot.Valid() && |results| == n && slot.constructions <= 1
    ensures forall i :: 0 <= i < n ==> results[i] == slot.instance
    ensures old(slot.instance) != null ==> slot.instance == old(slot.instance)
    ensures n > 0 && old(slot.instance) == null ==> fresh(slot.instance) && slot.constructions == 1
  {
    results := [];
    for k := 0 to n
      invariant slot.Valid() && |results| == k
      invariant forall i :: 0 <= i < k ==> results[i] == slot.instance
      invariant old(slot.instance) != null ==> slot.instance == old(slot.instance)
      invariant k > 0 && old(slot.instance) == null ==> fresh(slot.instance) && slot.constructions == 1
      invariant k == 0 ==> slot.instance == old(slot.instance)
    {
      var r := slot.GetInstance();
      results := results + [r];
    }
  }
}
