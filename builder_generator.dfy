/**
 * The Builder generator. For an annotated class `XBuilder` it emits two
 * files: the builder `XBuilder_`, a public subclass of `XBuilder` with a
 * public constructor, one fluent setter per processed member and `build()`;
 * and the built class `X`, public and serializable, with a public
 * constructor, one public field per processed member and `toString`.
 * A member is processed when its type is primitive or a declared type.
 */
module BuilderGenerator {
  import opened Wrappers
  import opened Elements
  import opened Poet
  import opened JavaStrings
  import Utils
  import SingletonGenerator

  const PatternName := "Builder"
  const CreatedClassSuffix := "_"

  // ---------------------------------------------------------------------
  // Naming
  // ---------------------------------------------------------------------

  /**
   * The builder's name: the annotated class's simple name followed by this
   * generator's suffix (the body reads the singleton generator's constant,
   * which is the same string).
   */
  function TargetFileName(t: TypeElement): (r: string)
    ensures |r| == |t.element.name| + |CreatedClassSuffix|
    ensures r[..|t.element.name|] == t.element.name && r[|t.element.name|..] == CreatedClassSuffix
  {
    t.element.name + SingletonGenerator.CreatedClassSuffix
  }

  /** The builder's class name, in the package that encloses the annotated class. */
  method GetTargetClassName(t: TypeElement, targetFileName: string) returns (c: ClassName)
    requires Utils.ReachesPackage(t.element)
    ensures c == ClassName(Utils.NearestPackage(t.element).name, targetFileName)
  {
    var p := Utils.GetPackage(t.element);
    c := ClassName(p.name, targetFileName);
  }

  /**
   * The built class's name: the builder's simple name cut at the first
   * occurrence of "Builder". `substring(0, -1)` throws when it is absent.
   */
  function ClassNameToBuild(className: ClassName): (r: Result<string, GenerationError>)
    ensures r.Success? <==> Contains(className.simpleName, PatternName)
    ensures r.Success? ==>
      var s, n := className.simpleName, |r.value|;
      n <= |s| && r.value == s[..n] && OccursAt(s, PatternName, n) &&
      forall j: nat :: j < n ==> !OccursAt(s, PatternName, j)
  {
    var idx := IndexOf(className.simpleName, PatternName);
    if idx < 0 then Failure(StringIndexOutOfBounds) else Success(className.simpleName[..idx])
  }

  /** The name of the local variable `build()` declares: the built name in lower case. */
  function BuiltVarName(className: ClassName): string
    requires ClassNameToBuild(className).Success?
  {
    LowerCase(ClassNameToBuild(className).value)
  }

  /** The setter's name: "set", the field's first character in upper case, the rest unchanged. */
  function SetterName(field: string): (r: string)
    requires |field| > 0
    ensures |r| == |field| + 3 && r[..3] == "set" && r[3] == ToUpper(field[0]) && r[4..] == field[1..]
  {
    "set" + [ToUpper(field[0])] + field[1..]
  }

  // ---------------------------------------------------------------------
  // Which members are processed
  // ---------------------------------------------------------------------

  /** `isElementToProcess`: a member whose type is primitive or a declared type. */
  predicate IsElementToProcess(m: Member)
    ensures !IsElementToProcess(m) <==> m.kind in {Void, NoType, NullType, Array, ErrorType, TypeVar,
      Wildcard, PackageType, Executable, Union, Intersection, ModuleType, OtherType}
  {
    m.kind.IsPrimitive() || m.kind == Declared
  }

  /** The members `generate` processes, in declaration order. */
  function Processed(members: seq<Member>): (r: seq<Member>)
    ensures |r| <= |members|
    ensures forall m :: m in r <==> m in members && IsElementToProcess(m)
  {
    if members == [] then []
    else
      var last := members[|members| - 1];
      Processed(members[..|members| - 1]) + (if IsElementToProcess(last) then [last] else [])
  }

  /** Every processed member has a non-empty name (else `substring(0, 1)` throws). */
  predicate AllNamed(ms: seq<Member>) {
    forall i :: 0 <= i < |ms| ==> ms[i].name != ""
  }

  // ---------------------------------------------------------------------
  // The generated members
  // ---------------------------------------------------------------------

  /** The public no-argument constructor both generated classes declare. */
  function GetConstructorSpec(): MethodSpec {
    MethodSpec(ConstructorName, true, {Public}, [], None, [], [])
  }

  /** The builder before any member is visited: public, extends the annotated type, holds the constructor. */
  function GetBuilderClassTypeSpec(typeName: string, className: ClassName): TypeSpec {
    TypeSpec(className.simpleName, {Public}, Some(typeName), [], [], [GetConstructorSpec()])
  }

  /** `getConstructorSpec`: a public constructor that takes nothing and does nothing. */
  lemma ConstructorShape()
    ensures var c := GetConstructorSpec();
      c.isConstructor && c.modifiers == {Public} && c.params == [] && c.body == []
  {}

  /**
   * The builder before any member is visited: public, named by the
   * builder's class name, extending the annotated type, with no fields and
   * only the constructor.
   */
  lemma BuilderStart(typeName: string, className: ClassName)
    ensures var b := GetBuilderClassTypeSpec(typeName, className);
      b.name == className.simpleName && b.modifiers == {Public} && b.superclass == Some(typeName) &&
      b.fields == [] && b.methods == [GetConstructorSpec()]
  {}

  /**
   * The built class before any member is visited: public, serializable, holds
   * the constructor. It throws when naming does, and the class builder of the
   * emitting library throws on an empty name (a class named `Builder...`).
   */
  function GetBuiltClassTypeSpec(className: ClassName): (r: Result<TypeSpec, GenerationError>)
    ensures r.Success? <==> ClassNameToBuild(className).Success? && ClassNameToBuild(className).value != ""
    ensures ClassNameToBuild(className).Success? && r.Failure? ==> r.error == IllegalArgument
    ensures r.Success? ==> r.value.name == ClassNameToBuild(className).value && r.value.fields == []
  {
    match ClassNameToBuild(className)
    case Failure(e) => Failure(e)
    case Success(built) =>
      if built == "" then Failure(IllegalArgument)
      else Success(TypeSpec(built, {Public}, None, [SerializableType], [], [GetConstructorSpec()]))
  }

  /** The fluent setter of member `m`: `public B setF(T f) { super.f=f; return this; }`. */
  function SetterSpec(m: Member, builder: ClassName): MethodSpec
    requires m.name != ""
  {
    MethodSpec(SetterName(m.name), false, {Public}, [], Some(builder.Canonical()),
      [Param(m.typeName, m.name)], [AssignSuper(m.name), ReturnThis])
  }

  /** The public field of the built class for member `m`. */
  function BuiltFieldSpec(m: Member): FieldSpec {
    FieldSpec(m.typeName, m.name, {Public}, None)
  }

  /** `build()`: declare `v = new Built()`, run the copy lines, return `v`. */
  function BuildMethodSpec(built: ClassName, local: string, code: seq<Statement>): MethodSpec {
    MethodSpec("build", false, {Public}, [], Some(built.Canonical()), [],
      [DeclareNew(built.Canonical(), local)] + code + [ReturnName(local)])
  }

  /** `toString()`: public, overriding, returns String, one statement: the code block. */
  function ToStringMethodSpec(block: seq<ToStringPart>): MethodSpec {
    MethodSpec("toString", false, {Public}, [OverrideAnnotation], Some(StringType), [], [ReturnConcat(block)])
  }

  /** One setter per member, in order. */
  function Setters(ms: seq<Member>, builder: ClassName): (r: seq<MethodSpec>)
    requires AllNamed(ms)
    ensures |r| == |ms| && forall i :: 0 <= i < |ms| ==> r[i] == SetterSpec(ms[i], builder)
  {
    if ms == [] then [] else Setters(ms[..|ms| - 1], builder) + [SetterSpec(ms[|ms| - 1], builder)]
  }

  /** One `v.f = f;` line per member, in order. */
  function CopyLines(local: string, ms: seq<Member>): (r: seq<Statement>)
    ensures |r| == |ms| && forall i :: 0 <= i < |ms| ==> r[i] == CopyToLocal(local, ms[i].name)
  {
    if ms == [] then [] else CopyLines(local, ms[..|ms| - 1]) + [CopyToLocal(local, ms[|ms| - 1].name)]
  }

  /** One public field per member, in order. */
  function BuiltFields(ms: seq<Member>): (r: seq<FieldSpec>)
    ensures |r| == |ms| && forall i :: 0 <= i < |ms| ==> r[i] == BuiltFieldSpec(ms[i])
  {
    if ms == [] then [] else BuiltFields(ms[..|ms| - 1]) + [BuiltFieldSpec(ms[|ms| - 1])]
  }

  /** One toString entry per member, in order. */
  function Entries(ms: seq<Member>): (r: seq<ToStringPart>)
    ensures |r| == |ms| && forall i :: 0 <= i < |ms| ==> r[i] == Entry(ms[i].name)
  {
    if ms == [] then [] else Entries(ms[..|ms| - 1]) + [Entry(ms[|ms| - 1].name)]
  }

  /** The builder class once the members `ps` have been visited. */
  function BuilderAfter(typeName: string, className: ClassName, ps: seq<Member>): TypeSpec
    requires AllNamed(ps)
  {
    GetBuilderClassTypeSpec(typeName, className).(methods := [GetConstructorSpec()] + Setters(ps, className))
  }

  /** The built class once the members `ps` have been visited. */
  function BuiltAfter(className: ClassName, ps: seq<Member>): TypeSpec
    requires GetBuiltClassTypeSpec(className).Success?
  {
    GetBuiltClassTypeSpec(className).value.(fields := BuiltFields(ps))
  }

  // ---------------------------------------------------------------------
  // The specification of `generate`
  // ---------------------------------------------------------------------

  /** The builder's class name: its package and TargetFileName. */
  function BuilderClassName(t: TypeElement): ClassName
    requires Utils.ReachesPackage(t.element)
  {
    ClassName(Utils.NearestPackage(t.element).name, TargetFileName(t))
  }

  /**
   * The two files `generate` returns, builder first, or the exception it
   * throws: no "Builder" in the builder's name, an empty built name, or a
   * processed member with an empty name.
   */
  function GenerateSpec(t: TypeElement): Result<seq<JavaFile>, GenerationError>
    requires Utils.ReachesPackage(t.element)
  {
    var pkg := Utils.NearestPackage(t.element).name;
    var className := BuilderClassName(t);
    var ps := Processed(t.members);
    match ClassNameToBuild(className)
    case Failure(e) => Failure(e)
    case Success(built) =>
      if built == "" then Failure(IllegalArgument)
      else if !AllNamed(ps) then Failure(StringIndexOutOfBounds)
      else
        var local := LowerCase(built);
        var builderSpec := BuilderAfter(t.typeName, className, ps)
          .AddMethod(BuildMethodSpec(ClassName(pkg, built), local, CopyLines(local, ps)));
        var builtSpec := BuiltAfter(className, ps)
          .AddMethod(ToStringMethodSpec([Opening, Title(built)] + Entries(ps) + [Closing]));
        Success([JavaFile(pkg, builderSpec), JavaFile(pkg, builtSpec)])
  }

  // ---------------------------------------------------------------------
  // The helpers that accumulate the two classes
  // ---------------------------------------------------------------------

  /** Accumulates the builder class and the copy lines of `build()`. */
  class BuilderClassHelper {
    var className: ClassName
    var builderTypeSpec: TypeSpec
    var buildMethodBuilder: seq<Statement>

    constructor (t: TypeElement, className: ClassName)
      ensures this.className == className
      ensures builderTypeSpec == GetBuilderClassTypeSpec(t.typeName, className)
      ensures buildMethodBuilder == []
    {
      this.className := className;
      builderTypeSpec := GetBuilderClassTypeSpec(t.typeName, className);
      buildMethodBuilder := [];
    }

    method VisitMethod(m: MethodSpec)
      modifies this`builderTypeSpec
      ensures builderTypeSpec == old(builderTypeSpec).AddMethod(m)
    {
      builderTypeSpec := builderTypeSpec.AddMethod(m);
    }

    /** Adds the line `v.f = f;` for field `fieldName`. */
    method VisitFieldName(fieldName: string)
      requires ClassNameToBuild(className).Success?
      modifies this`buildMethodBuilder
      ensures buildMethodBuilder == old(buildMethodBuilder) + [CopyToLocal(BuiltVarName(className), fieldName)]
    {
      var builtClassVarName := LowerCase(ClassNameToBuild(className).value);
      buildMethodBuilder := buildMethodBuilder + [CopyToLocal(builtClassVarName, fieldName)];
    }
  }

  /** Accumulates the built class and the fragments of its `toString`. */
  class BuiltClassHelper {
    var builtTypeSpec: TypeSpec
    var toStringBuilder: seq<ToStringPart>

    constructor (className: ClassName)
      requires GetBuiltClassTypeSpec(className).Success?
      ensures builtTypeSpec == GetBuiltClassTypeSpec(className).value
      ensures toStringBuilder == [Opening, Title(ClassNameToBuild(className).value)]
    {
      builtTypeSpec := GetBuiltClassTypeSpec(className).value;
      var builtFileName := ClassNameToBuild(className).value;
      toStringBuilder := [Opening, Title(builtFileName)];
    }

    method VisitField(f: FieldSpec)
      modifies this`builtTypeSpec
      ensures builtTypeSpec == old(builtTypeSpec).AddField(f)
    {
      builtTypeSpec := builtTypeSpec.AddField(f);
    }

    method VisitMethod(m: MethodSpec)
      modifies this`builtTypeSpec
      ensures builtTypeSpec == old(builtTypeSpec).AddMethod(m)
    {
      builtTypeSpec := builtTypeSpec.AddMethod(m);
    }

    method VisitFieldName(fieldName: string)
      modifies this`toStringBuilder
      ensures toStringBuilder == old(toStringBuilder) + [Entry(fieldName)]
    {
      toStringBuilder := toStringBuilder + [Entry(fieldName)];
    }

    /** Appends the closing fragment and returns the whole block; each call appends again. */
    method GetToStringCodeBlock() returns (block: seq<ToStringPart>)
      modifies this`toStringBuilder
      ensures toStringBuilder == old(toStringBuilder) + [Closing]
      ensures block == toStringBuilder
    {
      toStringBuilder := toStringBuilder + [Closing];
      block := toStringBuilder;
    }
  }

  // ---------------------------------------------------------------------
  // The steps of `generate`
  // ---------------------------------------------------------------------

  /**
   * Adds the setter of `m` and its copy line; throws (ok is false, nothing
   * changes) when the member's name is empty.
   */
  method AddBuilderMethodToBuilderClass(helper: BuilderClassHelper, m: Member, returnType: ClassName)
    returns (ok: bool)
    requires ClassNameToBuild(helper.className).Success?
    modifies helper`builderTypeSpec, helper`buildMethodBuilder
    ensures ok == (m.name != "")
    ensures ok ==> helper.builderTypeSpec == old(helper.builderTypeSpec).AddMethod(SetterSpec(m, returnType))
    ensures ok ==>
      helper.buildMethodBuilder == old(helper.buildMethodBuilder) + [CopyToLocal(BuiltVarName(helper.className), m.name)]
    ensures !ok ==> helper.builderTypeSpec == old(helper.builderTypeSpec)
    ensures !ok ==> helper.buildMethodBuilder == old(helper.buildMethodBuilder)
  {
    if m.name == "" {
      return false;
    }
    var builderMethodSpec := SetterSpec(m, returnType);
    helper.VisitMethod(builderMethodSpec);
    helper.VisitFieldName(m.name);
    ok := true;
  }

  /** Adds the public field of `m` and its toString entry. */
  method AddFieldToBuiltClass(helper: BuiltClassHelper, m: Member)
    modifies helper
    ensures helper.builtTypeSpec == old(helper.builtTypeSpec).AddField(BuiltFieldSpec(m))
    ensures helper.toStringBuilder == old(helper.toStringBuilder) + [Entry(m.name)]
  {
    helper.VisitField(BuiltFieldSpec(m));
    helper.VisitFieldName(m.name);
  }

  /** Adds `build()` last, with the copy lines accumulated so far. */
  method AddBuildMethodToBuilderClass(helper: BuilderClassHelper, t: TypeElement, className: ClassName)
    requires Utils.ReachesPackage(t.element)
    requires ClassNameToBuild(className).Success?
    modifies helper`builderTypeSpec
    ensures helper.builderTypeSpec == old(helper.builderTypeSpec).AddMethod(BuildMethodSpec(
      ClassName(Utils.NearestPackage(t.element).name, ClassNameToBuild(className).value),
      BuiltVarName(className), helper.buildMethodBuilder))
  {
    var builtFileName := ClassNameToBuild(className).value;
    var p := Utils.GetPackage(t.element);
    var justCreatedClassName := ClassName(p.name, builtFileName);
    var builtClassVarName := LowerCase(ClassNameToBuild(className).value);
    var buildMethod := BuildMethodSpec(justCreatedClassName, builtClassVarName, helper.buildMethodBuilder);
    helper.VisitMethod(buildMethod);
  }

  /** Closes the toString block and adds `toString()`. */
  method AddToStringMethodToBuiltClass(helper: BuiltClassHelper)
    modifies helper
    ensures helper.toStringBuilder == old(helper.toStringBuilder) + [Closing]
    ensures helper.builtTypeSpec == old(helper.builtTypeSpec).AddMethod(ToStringMethodSpec(helper.toStringBuilder))
  {
    var block := helper.GetToStringCodeBlock();
    helper.VisitMethod(ToStringMethodSpec(block));
  }

  method GetJavaFile(t: TypeElement, typeSpec: TypeSpec) returns (f: JavaFile)
    requires Utils.ReachesPackage(t.element)
    ensures f == JavaFile(Utils.NearestPackage(t.element).name, typeSpec)
  {
    var p := Utils.GetPackage(t.element);
    f := JavaFile(p.name, typeSpec);
  }

  /** Filtering one more member extends the processed prefix by it or by nothing. */
  lemma ProcessedPrefix(members: seq<Member>, i: nat)
    requires i < |members|
    ensures Processed(members[..i + 1]) ==
      Processed(members[..i]) + (if IsElementToProcess(members[i]) then [members[i]] else [])
  {
    assert members[..i + 1][..i] == members[..i];
  }

  /** Each of the four per-member sequences grows by one element when a member is appended. */
  lemma AppendMember(ps: seq<Member>, m: Member, builder: ClassName, local: string)
    ensures (ps + [m])[..|ps|] == ps
    ensures AllNamed(ps) && m.name != "" ==>
      AllNamed(ps + [m]) && Setters(ps + [m], builder) == Setters(ps, builder) + [SetterSpec(m, builder)]
    ensures CopyLines(local, ps + [m]) == CopyLines(local, ps) + [CopyToLocal(local, m.name)]
    ensures BuiltFields(ps + [m]) == BuiltFields(ps) + [BuiltFieldSpec(m)]
    ensures Entries(ps + [m]) == Entries(ps) + [Entry(m.name)]
  {
    assert (ps + [m])[..|ps|] == ps;
  }

  /** Visiting one more member adds its setter to the builder and its field to the built class. */
  lemma AfterAppend(typeName: string, className: ClassName, ps: seq<Member>, m: Member)
    requires AllNamed(ps) && m.name != "" && GetBuiltClassTypeSpec(className).Success?
    ensures AllNamed(ps + [m])
    ensures BuilderAfter(typeName, className, ps + [m]) ==
      BuilderAfter(typeName, className, ps).AddMethod(SetterSpec(m, className))
    ensures BuiltAfter(className, ps + [m]) == BuiltAfter(className, ps).AddField(BuiltFieldSpec(m))
  {
    AppendMember(ps, m, className, "");
  }

  lemma EntriesAppend(title: seq<ToStringPart>, ps: seq<Member>, m: Member)
    ensures title + Entries(ps + [m]) == title + Entries(ps) + [Entry(m.name)]
  {
    AppendMember(ps, m, ClassName("", ""), "");
  }

  /** A member with an empty name among the visited ones means not all processed members are named. */
  lemma UnnamedMember(members: seq<Member>, m: Member)
    requires m in members && IsElementToProcess(m) && m.name == ""
    ensures !AllNamed(Processed(members))
  {
    var ps := Processed(members);
    assert m in ps;
    var k :| 0 <= k < |ps| && ps[k] == m;
  }

  /** The two helpers hold what visiting the members `ps` produces. */
  ghost predicate HelpersAfter(builderClassHelper: BuilderClassHelper, builtClassHelper: BuiltClassHelper,
                               typeName: string, className: ClassName, ps: seq<Member>)
    requires GetBuiltClassTypeSpec(className).Success?
    reads builderClassHelper, builtClassHelper
  {
    AllNamed(ps) &&
    builderClassHelper.className == className &&
    builderClassHelper.builderTypeSpec == BuilderAfter(typeName, className, ps) &&
    builderClassHelper.buildMethodBuilder == CopyLines(BuiltVarName(className), ps) &&
    builtClassHelper.builtTypeSpec == BuiltAfter(className, ps) &&
    builtClassHelper.toStringBuilder == [Opening, Title(ClassNameToBuild(className).value)] + Entries(ps)
  }

  /**
   * The body of the loop of `generate` for one enclosed element: a processed
   * member adds its setter and copy line to the builder helper and its field
   * and toString entry to the built helper; a processed member with an empty
   * name throws (ok is false).
   */
  method VisitMember(typeName: string, className: ClassName, builderClassHelper: BuilderClassHelper,
                     builtClassHelper: BuiltClassHelper, enclosedElement: Member, ghost ps: seq<Member>)
    returns (ok: bool)
    requires GetBuiltClassTypeSpec(className).Success?
    requires HelpersAfter(builderClassHelper, builtClassHelper, typeName, className, ps)
    modifies builderClassHelper`builderTypeSpec, builderClassHelper`buildMethodBuilder, builtClassHelper
    ensures ok == (!IsElementToProcess(enclosedElement) || enclosedElement.name != "")
    ensures ok ==> HelpersAfter(builderClassHelper, builtClassHelper, typeName, className,
      ps + if IsElementToProcess(enclosedElement) then [enclosedElement] else [])
  {
    if !IsElementToProcess(enclosedElement) {
      assert ps + [] == ps;
      return true;
    }
    ok := AddBuilderMethodToBuilderClass(builderClassHelper, enclosedElement, className);
    if !ok {
      return;
    }
    AddFieldToBuiltClass(builtClassHelper, enclosedElement);
    AppendMember(ps, enclosedElement, className, BuiltVarName(className));
    AfterAppend(typeName, className, ps, enclosedElement);
    EntriesAppend([Opening, Title(ClassNameToBuild(className).value)], ps, enclosedElement);
  }

  /**
   * The loop of `generate` over the enclosed elements, in declaration order;
   * it stops at the first processed member with an empty name (ok is false).
   */
  method VisitMembers(t: TypeElement, className: ClassName, builderClassHelper: BuilderClassHelper,
                      builtClassHelper: BuiltClassHelper) returns (ok: bool)
    requires GetBuiltClassTypeSpec(className).Success?
    requires HelpersAfter(builderClassHelper, builtClassHelper, t.typeName, className, [])
    modifies builderClassHelper`builderTypeSpec, builderClassHelper`buildMethodBuilder, builtClassHelper
    ensures ok == AllNamed(Processed(t.members))
    ensures ok ==> HelpersAfter(builderClassHelper, builtClassHelper, t.typeName, className, Processed(t.members))
  {
    ghost var ps: seq<Member> := [];
    for i := 0 to |t.members|
      invariant ps == Processed(t.members[..i])
      invariant HelpersAfter(builderClassHelper, builtClassHelper, t.typeName, className, ps)
    {
      ProcessedPrefix(t.members, i);
      var visited := VisitMember(t.typeName, className, builderClassHelper, builtClassHelper, t.members[i], ps);
      if !visited {
        UnnamedMember(t.members, t.members[i]);
        return false;
      }
      ps := ps + if IsElementToProcess(t.members[i]) then [t.members[i]] else [];
    }
    assert t.members[..|t.members|] == t.members;
    ok := true;
  }

  /**
   * `generate`: one pass over the enclosed members feeds both helpers; then
   * `build()` and `toString()` are added and the two files returned.
   */
  method Generate(t: TypeElement) returns (r: Result<seq<JavaFile>, GenerationError>)
    requires Utils.ReachesPackage(t.element)
    ensures r == GenerateSpec(t)
  {
    var targetFileName := TargetFileName(t);
    var className := GetTargetClassName(t, targetFileName);
    var builderClassHelper := new BuilderClassHelper(t, className);
    var builtTypeSpec := GetBuiltClassTypeSpec(className);
    if builtTypeSpec.Failure? {
      // the built-class helper's constructor throws
      return Failure(builtTypeSpec.error);
    }
    var builtClassHelper := new BuiltClassHelper(className);
    assert builderClassHelper.builderTypeSpec == BuilderAfter(t.typeName, className, []);
    var ok := VisitMembers(t, className, builderClassHelper, builtClassHelper);
    if !ok {
      return Failure(StringIndexOutOfBounds);
    }
    AddBuildMethodToBuilderClass(builderClassHelper, t, className);
    AddToStringMethodToBuiltClass(builtClassHelper);

    var builderJavaFile := GetJavaFile(t, builderClassHelper.builderTypeSpec);
    var builtJavaFile := GetJavaFile(t, builtClassHelper.builtTypeSpec);
    r := Success([builderJavaFile, builtJavaFile]);
  }

  // ---------------------------------------------------------------------
  // Properties
  // ---------------------------------------------------------------------

  /** Both generators name their class the same way. */
  lemma TargetNamesAgree(t: TypeElement)
    ensures TargetFileName(t) == SingletonGenerator.TargetFileName(t)
  {}

  /** Filtering distributes over concatenation: processed members keep their relative order. */
  lemma {:induction false} ProcessedAppend(a: seq<Member>, b: seq<Member>)
    ensures Processed(a + b) == Processed(a) + Processed(b)
    decreases |b|
  {
    if b == [] {
      assert a + b == a;
    } else {
      var b' := b[..|b| - 1];
      assert (a + b)[..|a + b| - 1] == a + b';
      assert (a + b)[|a + b| - 1] == b[|b| - 1];
      ProcessedAppend(a, b');
    }
  }

  /** When every member is processed, all of them are, in the same order. */
  lemma {:induction false} ProcessedAll(members: seq<Member>)
    requires forall i :: 0 <= i < |members| ==> IsElementToProcess(members[i])
    ensures Processed(members) == members
  {
    if members != [] {
      ProcessedAll(members[..|members| - 1]);
      assert members[..|members| - 1] + [members[|members| - 1]] == members;
    }
  }

  /** "Builder" cannot straddle the appended "_": it occurs at `j` in `name + "_"` iff it does in `name`. */
  lemma SuffixOccurrence(name: string, j: nat)
    ensures OccursAt(name + CreatedClassSuffix, PatternName, j) <==> OccursAt(name, PatternName, j)
  {
    var s := name + CreatedClassSuffix;
    if OccursAt(s, PatternName, j) {
      assert s[j + |PatternName| - 1] == 'r' by {
        assert s[j..j + |PatternName|][|PatternName| - 1] == s[j + |PatternName| - 1];
      }
      assert s[|name|] == '_';
      assert s[j..j + |PatternName|] == name[j..j + |PatternName|];
    }
    if OccursAt(name, PatternName, j) {
      assert s[j..j + |PatternName|] == name[j..j + |PatternName|];
    }
  }

  /** Hence "Builder" occurs in `name + "_"` iff it occurs in `name`. */
  lemma SuffixKeepsPattern(name: string)
    ensures Contains(name + CreatedClassSuffix, PatternName) <==> Contains(name, PatternName)
  {
    var s := name + CreatedClassSuffix;
    if Contains(s, PatternName) {
      var i: nat :| OccursAt(s, PatternName, i);
      SuffixOccurrence(name, i);
    }
    if Contains(name, PatternName) {
      var i: nat :| OccursAt(name, PatternName, i);
      SuffixOccurrence(name, i);
    }
  }

  /**
   * The built class's name is the annotated class's simple name cut at its
   * first "Builder"; naming throws exactly when "Builder" does not occur in it.
   */
  lemma BuiltNameFromAnnotated(t: TypeElement)
    requires Utils.ReachesPackage(t.element)
    ensures var r, name := ClassNameToBuild(BuilderClassName(t)), t.element.name;
      (r.Success? <==> Contains(name, PatternName)) &&
      (r.Success? ==>
         |r.value| <= |name| && r.value == name[..|r.value|] &&
         OccursAt(name, PatternName, |r.value|) &&
         forall j: nat :: j < |r.value| ==> !OccursAt(name, PatternName, j))
  {
    var name := t.element.name;
    var s := TargetFileName(t);
    assert s == name + CreatedClassSuffix;
    SuffixKeepsPattern(name);
    var r := ClassNameToBuild(BuilderClassName(t));
    if r.Success? {
      var n := |r.value|;
      SuffixOccurrence(name, n);
      assert r.value == name[..n] by {
        assert s[..n] == name[..n];
      }
      forall j: nat | j < n ensures !OccursAt(name, PatternName, j) {
        SuffixOccurrence(name, j);
      }
    }
  }

  /** An occurrence of "Builder" starts with 'B'. */
  lemma StartsWithB(s: string, j: nat)
    requires j < |s|
    ensures OccursAt(s, PatternName, j) ==> s[j] == 'B'
  {
    if OccursAt(s, PatternName, j) {
      assert s[j..j + |PatternName|][0] == s[j];
    }
  }

  /** The names the tests pin: `CarroBuilder_`, in any package, builds `Carro`. */
  lemma BuiltNameExamples(pkg: string)
    ensures ClassNameToBuild(ClassName(pkg, "CarroBuilder_")) == Success("Carro")
  {
    var s := "CarroBuilder_";
    assert s[5..12] == PatternName;
    assert s[..5] == "Carro";
    CutAt(ClassName(pkg, s), 5);
  }

  /** The local variable of `build()` for `CarroBuilder_` is `carro`. */
  lemma BuiltVarExample(pkg: string)
    ensures var c := ClassName(pkg, "CarroBuilder_");
      ClassNameToBuild(c).Success? && BuiltVarName(c) == "carro"
  {
    BuiltNameExamples(pkg);
    LowerCarro();
  }

  /** `"Carro".toLowerCase()` is `"carro"`. */
  lemma LowerCarro()
    ensures LowerCase("Carro") == "carro"
  {
    var r := LowerCase("Carro");
    assert r[0] == 'c' && r[1] == 'a' && r[2] == 'r' && r[3] == 'r' && r[4] == 'o';
  }

  /** Only the first "Builder" counts: `MyBuilderOfBuilder_` builds `My`. */
  lemma FirstOccurrenceExample()
    ensures ClassNameToBuild(ClassName("p", "MyBuilderOfBuilder_")) == Success("My")
  {
    var s := "MyBuilderOfBuilder_";
    assert s[2..9] == PatternName;
    assert s[..2] == "My";
    CutAt(ClassName("p", s), 2);
  }

  /** When "Builder" first starts at `n` (no 'B' before it), the built name is the first `n` characters. */
  lemma CutAt(c: ClassName, n: nat)
    requires OccursAt(c.simpleName, PatternName, n)
    requires forall j :: 0 <= j < n ==> c.simpleName[j] != 'B'
    ensures ClassNameToBuild(c) == Success(c.simpleName[..n])
  {
    var s := c.simpleName;
    var r := ClassNameToBuild(c);
    assert r.Success?;
    var k := |r.value|;
    if k < n {
      StartsWithB(s, k);
    }
  }

  /** A simple name without "Builder", such as `Carro_`, makes naming throw. */
  lemma BuiltNameMissingPattern()
    ensures ClassNameToBuild(ClassName("p", "Carro_")).Failure?
  {
    var s := "Carro_";
    forall j: nat ensures !OccursAt(s, PatternName, j) {
      if j < |s| {
        StartsWithB(s, j);
      }
    }
  }

  /** The setter name gives back the field name by lower-casing its fourth character. */
  lemma SetterNameRoundTrip(field: string)
    requires field != "" && !IsUpperAscii(field[0])
    ensures var r := SetterName(field); [ToLower(r[3])] + r[4..] == field
  {
    LowerUpperRoundTrip(field[0]);
    assert [field[0]] + field[1..] == field;
  }

  /** Fields that start with a lower-case letter (or no letter) get distinct setters. */
  lemma SetterNameInjective(f: string, g: string)
    requires f != "" && g != "" && !IsUpperAscii(f[0]) && !IsUpperAscii(g[0])
    requires SetterName(f) == SetterName(g)
    ensures f == g
  {
    SetterNameRoundTrip(f);
    SetterNameRoundTrip(g);
  }

  /**
   * `generate` succeeds exactly when "Builder" occurs in the class's name,
   * but not at its start, and every processed member is named.
   */
  lemma GenerateSucceedsIff(t: TypeElement)
    requires Utils.ReachesPackage(t.element)
    ensures var name := t.element.name;
      GenerateSpec(t).Success? <==>
        Contains(name, PatternName) && !OccursAt(name, PatternName, 0) && AllNamed(Processed(t.members))
  {
    BuiltNameFromAnnotated(t);
  }

  /** A class whose name starts with "Builder" gets an empty built name, which the class builder refuses. */
  lemma BuilderPrefixFails(t: TypeElement)
    requires Utils.ReachesPackage(t.element) && OccursAt(t.element.name, PatternName, 0)
    ensures ClassNameToBuild(BuilderClassName(t)) == Success("")
    ensures GenerateSpec(t) == Failure(IllegalArgument)
  {
    BuiltNameFromAnnotated(t);
  }

  /**
   * What `generate` returns: on success exactly two files, both in the
   * class's package; on failure IllegalArgument exactly when the built name
   * is empty, and the substring error otherwise.
   */
  lemma GenerateResult(t: TypeElement)
    requires Utils.ReachesPackage(t.element)
    ensures var r, pkg := GenerateSpec(t), Utils.NearestPackage(t.element).name;
      (r.Success? ==> |r.value| == 2 && r.value[0].packageName == pkg && r.value[1].packageName == pkg) &&
      (r.Failure? ==> (r.error == IllegalArgument <==> ClassNameToBuild(BuilderClassName(t)) == Success("")))
  {}

  /** The two files of a successful `generate`, spelled out. */
  lemma GeneratedFiles(t: TypeElement)
    requires Utils.ReachesPackage(t.element) && GenerateSpec(t).Success?
    ensures var c, ps, pkg := BuilderClassName(t), Processed(t.members), Utils.NearestPackage(t.element).name;
      ClassNameToBuild(c).Success? && AllNamed(ps) &&
      var built := ClassNameToBuild(c).value;
      var local := LowerCase(built);
      GenerateSpec(t).value == [
        JavaFile(pkg, BuilderAfter(t.typeName, c, ps).AddMethod(BuildMethodSpec(ClassName(pkg, built), local, CopyLines(local, ps)))),
        JavaFile(pkg, BuiltAfter(c, ps).AddMethod(ToStringMethodSpec([Opening, Title(built)] + Entries(ps) + [Closing])))]
  {}

  /**
   * The builder file: the first of exactly two; a public subclass of the
   * annotated type named TargetFileName, holding the public no-argument
   * constructor, then one setter per processed member in order, then `build()`.
   */
  lemma BuilderFileShape(t: TypeElement)
    requires Utils.ReachesPackage(t.element) && GenerateSpec(t).Success?
    ensures var files, ps := GenerateSpec(t).value, Processed(t.members);
      |files| == 2 && AllNamed(ps) &&
      files[0].packageName == Utils.NearestPackage(t.element).name &&
      files[0].typeSpec.name == TargetFileName(t) &&
      files[0].typeSpec.modifiers == {Public} &&
      files[0].typeSpec.superclass == Some(t.typeName) &&
      files[0].typeSpec.fields == [] &&
      |files[0].typeSpec.methods| == |ps| + 2 &&
      files[0].typeSpec.methods[0] == GetConstructorSpec() &&
      files[0].typeSpec.methods[|ps| + 1].name == "build"
  {
    GeneratedFiles(t);
  }

  /** The i-th setter belongs to the i-th processed member: `public B setF(T f) { super.f=f; return this; }`. */
  lemma SetterShape(t: TypeElement, i: nat)
    requires Utils.ReachesPackage(t.element) && GenerateSpec(t).Success?
    requires i < |Processed(t.members)|
    ensures var ps, b := Processed(t.members), GenerateSpec(t).value[0].typeSpec;
      AllNamed(ps) && i + 1 < |b.methods| &&
      b.methods[i + 1].name == SetterName(ps[i].name) &&
      b.methods[i + 1].modifiers == {Public} && !b.methods[i + 1].isConstructor &&
      b.methods[i + 1].returnType == Some(BuilderClassName(t).Canonical()) &&
      b.methods[i + 1].params == [Param(ps[i].typeName, ps[i].name)] &&
      b.methods[i + 1].body == [AssignSuper(ps[i].name), ReturnThis]
  {
    GeneratedFiles(t);
    var ps := Processed(t.members);
    var b := GenerateSpec(t).value[0].typeSpec;
    assert b.methods == [GetConstructorSpec()] + Setters(ps, BuilderClassName(t)) + [b.methods[|b.methods| - 1]];
  }

  /**
   * `build()` declares `v = new Built()` with `v` the built name in lower
   * case, then holds exactly one `v.f = f;` per processed member in order,
   * then returns `v`.
   */
  lemma BuildMethodShape(t: TypeElement)
    requires Utils.ReachesPackage(t.element) && GenerateSpec(t).Success?
    ensures var ps, b := Processed(t.members), GenerateSpec(t).value[0].typeSpec;
      var built := ClassNameToBuild(BuilderClassName(t)).value;
      var v := LowerCase(built);
      var builtType := ClassName(Utils.NearestPackage(t.element).name, built).Canonical();
      var m := b.methods[|b.methods| - 1];
      m.modifiers == {Public} && m.params == [] && m.returnType == Some(builtType) &&
      |m.body| == |ps| + 2 &&
      m.body[0] == DeclareNew(builtType, v) &&
      (forall i :: 0 <= i < |ps| ==> m.body[i + 1] == CopyToLocal(v, ps[i].name)) &&
      m.body[|ps| + 1] == ReturnName(v)
  {
    GeneratedFiles(t);
    var ps := Processed(t.members);
    var built := ClassNameToBuild(BuilderClassName(t)).value;
    var v := LowerCase(built);
    var className := ClassName(Utils.NearestPackage(t.element).name, built);
    var b := GenerateSpec(t).value[0].typeSpec;
    assert b.methods[|b.methods| - 1] == BuildMethodSpec(className, v, CopyLines(v, ps));
    BuildBody(className, v, ps);
  }

  /** The body of `build()`: declare the local, one copy per member in order, return the local. */
  lemma BuildBody(built: ClassName, local: string, ms: seq<Member>)
    ensures var body := BuildMethodSpec(built, local, CopyLines(local, ms)).body;
      |body| == |ms| + 2 &&
      body[0] == DeclareNew(built.Canonical(), local) &&
      (forall i :: 0 <= i < |ms| ==> body[i + 1] == CopyToLocal(local, ms[i].name)) &&
      body[|ms| + 1] == ReturnName(local)
  {
    var code := CopyLines(local, ms);
    var body := BuildMethodSpec(built, local, code).body;
    forall i | 0 <= i < |ms| ensures body[i + 1] == CopyToLocal(local, ms[i].name) {
      assert body[i + 1] == code[i];
    }
  }

  /**
   * The built file: the second one; a public serializable class named by
   * ClassNameToBuild, with one public field per processed member (same name
   * and type, in order), the public constructor and an overriding `toString`.
   */
  lemma BuiltFileShape(t: TypeElement)
    requires Utils.ReachesPackage(t.element) && GenerateSpec(t).Success?
    ensures var ps, f := Processed(t.members), GenerateSpec(t).value[1];
      var built := ClassNameToBuild(BuilderClassName(t)).value;
      f.packageName == Utils.NearestPackage(t.element).name &&
      f.typeSpec.name == built && f.typeSpec.modifiers == {Public} &&
      f.typeSpec.superclass == None && f.typeSpec.superinterfaces == [SerializableType] &&
      |f.typeSpec.fields| == |ps| &&
      (forall i :: 0 <= i < |ps| ==> f.typeSpec.fields[i] == FieldSpec(ps[i].typeName, ps[i].name, {Public}, None)) &&
      |f.typeSpec.methods| == 2 && f.typeSpec.methods[0] == GetConstructorSpec() &&
      f.typeSpec.methods[1].name == "toString" &&
      f.typeSpec.methods[1].annotations == [OverrideAnnotation] &&
      f.typeSpec.methods[1].modifiers == {Public} &&
      f.typeSpec.methods[1].returnType == Some(StringType) &&
      f.typeSpec.methods[1].body == [ReturnConcat([Opening, Title(built)] + Entries(ps) + [Closing])]
  {
    GeneratedFiles(t);
  }

  /** The setters, the copy lines of `build()`, the built fields and the toString entries are equally many. */
  lemma ParallelCounts(t: TypeElement)
    requires Utils.ReachesPackage(t.element) && GenerateSpec(t).Success?
    ensures var n, files := |Processed(t.members)|, GenerateSpec(t).value;
      var b, built := files[0].typeSpec, files[1].typeSpec;
      |b.methods| - 2 == |b.methods[|b.methods| - 1].body| - 2 == |built.fields| == n &&
      built.methods[1].body[0].ReturnConcat? && |built.methods[1].body[0].parts| - 3 == n
  {
    BuildMethodShape(t);
    BuiltFileShape(t);
  }

  // ---------------------------------------------------------------------
  // The value of the generated toString
  // ---------------------------------------------------------------------

  /** The entries of the string form: `f=v,` for each field, in order. */
  function RenderedEntries(ms: seq<Member>, values: string -> string): string {
    if ms == [] then "" else RenderedEntries(ms[..|ms| - 1], values) + RenderedEntry(ms[|ms| - 1], values)
  }

  /** One entry of the string form: `f=v,`. */
  function RenderedEntry(m: Member, values: string -> string): string {
    m.name + "=" + values(m.name) + ","
  }

  /** The string form of a built object: `Name {f1=v1,...,fN=vN,}`. */
  function Rendered(name: string, ms: seq<Member>, values: string -> string): string {
    name + " {" + RenderedEntries(ms, values) + "}"
  }

  lemma PartsValueSnoc(ps: seq<ToStringPart>, p: ToStringPart, values: string -> string)
    ensures PartsValue(ps + [p], values) == PartsValue(ps, values) + PartValue(p, values)
  {
    assert (ps + [p])[..|ps|] == ps;
  }

  lemma {:induction false} EntriesValue(pre: seq<ToStringPart>, ms: seq<Member>, values: string -> string)
    ensures PartsValue(pre + Entries(ms), values) == PartsValue(pre, values) + RenderedEntries(ms, values)
    decreases |ms|
  {
    if ms == [] {
      assert pre + Entries(ms) == pre;
    } else {
      var ms', m := ms[..|ms| - 1], ms[|ms| - 1];
      assert ms' + [m] == ms;
      var x := pre + Entries(ms');
      assert pre + Entries(ms) == x + [Entry(m.name)] by {
        EntriesAppend(pre, ms', m);
      }
      PartsValueSnoc(x, Entry(m.name), values);
      EntriesValue(pre, ms', values);
      var a, b, e := PartsValue(pre, values), RenderedEntries(ms', values), RenderedEntry(m, values);
      assert PartValue(Entry(m.name), values) == e;
      Assoc(a, b, e);
    }
  }

  /** Evaluating the generated toString block gives exactly the rendered string form. */
  lemma ToStringValue(t: TypeElement, values: string -> string)
    requires Utils.ReachesPackage(t.element) && GenerateSpec(t).Success?
    ensures var body := GenerateSpec(t).value[1].typeSpec.methods[1].body;
      |body| == 1 && body[0].ReturnConcat? &&
      PartsValue(body[0].parts, values) ==
        Rendered(ClassNameToBuild(BuilderClassName(t)).value, Processed(t.members), values)
  {
    BuiltFileShape(t);
    BlockValue(ClassNameToBuild(BuilderClassName(t)).value, Processed(t.members), values);
  }

  /** The toString block for `built` and fields `ms` evaluates to the rendered string form. */
  lemma BlockValue(built: string, ms: seq<Member>, values: string -> string)
    ensures PartsValue([Opening, Title(built)] + Entries(ms) + [Closing], values) == Rendered(built, ms, values)
  {
    var pre := [Opening, Title(built)];
    PartsValueSnoc([], Opening, values);
    assert [] + [Opening] == [Opening];
    assert PartsValue([Opening], values) == "";
    PartsValueSnoc([Opening], Title(built), values);
    assert [Opening] + [Title(built)] == pre;
    assert PartsValue(pre, values) == built + " {";
    EntriesValue(pre, ms, values);
    PartsValueSnoc(pre + Entries(ms), Closing, values);
  }

  /** The string form keeps a comma after the last entry; with no fields it is `Name {}`. */
  lemma {:induction false} RenderedShape(name: string, ms: seq<Member>, values: string -> string)
    ensures var r := Rendered(name, ms, values);
      (ms == [] ==> r == name + " {}") &&
      (ms != [] ==> |r| >= 2 && r[|r| - 2..] == ",}")
  {
    if ms != [] {
      var e := RenderedEntries(ms, values);
      assert e[|e| - 1] == ',';
    }
  }
}
