# PatternsAnnotations processor, modelled in Dafny

`patterns-processor` is a Java annotation processor. It runs at compile time
and generates source for two design patterns:

- For a class annotated `@Singleton` it writes one file. The file declares a
  public subclass `Name_` with a private static `instance` slot, a private
  constructor and a lazy `getInstance()`.
- For a class annotated `@Builder` it writes two files:
  - a builder `Name_`, holding a fluent setter per field and a `build()`;
  - a built class, named by the builder's name cut at its first `Builder`,
    holding one public field per field and a `toString()`.

This project models the derivation rules of the two generators, the package
lookup, and the dispatcher that writes the files through a Filer that may
fail. It proves the properties the code promises about each of them.

Modules, one per source unit:

- `Elements` replaces the compiler's element model. An element has a kind, a
  simple name and an optional enclosing element. An annotated class has its
  members in declaration order, each with a name, a type kind and a type name.
- `Poet` replaces the code-emission library. A file, a type, a field, a
  method and a statement are each a plain datatype. Types keep their fields
  and methods in the order they were added.
- `JavaStrings` holds the string operations the generators use: `indexOf`
  (which answers -1 when the pattern is absent) and ASCII case mapping.
- `Utils.GetPackage` is the `while` loop up the enclosing chain. It is proved
  against `NearestPackage`.
- `SingletonGenerator` describes the generated class as pure functions.
  `RunAccessor` runs the emitted `getInstance` body on the static slot.
  `StaticSlot` is a class whose `GetInstance` method is proved to do what
  running that body does: a check-then-assign on a nullable static slot.
- `BuilderGenerator` has the two accumulating helpers as classes with
  `modifies` clauses. `Generate` is the loop over the enclosed members, and it
  is proved equal to the specification function `GenerateSpec`. The lemmas
  state the shape of both files.
- `BuilderSemantics` is a small interpreter for the statements the builder
  emits. It proves that setting fields and then calling `build()` gives each
  field the last value set.
- `PatternsProcessor.Processor` is a class that records the write attempts,
  the files persisted and the diagnostics printed. The Filer is an oracle
  `filer: nat -> bool`, which says whether the n-th write attempt succeeds.
- `CarroExample` is the unit tests' `CarroBuilder` class.

Where a reader might expect other behaviour, the model follows the code:

- **An exception from the Builder generator ends the round.** Three inputs
  make `BuilderGenerator.generate` throw. A class name without `Builder`,
  and a processed member with an empty name, throw
  `StringIndexOutOfBoundsException` from `substring`. A class name that
  starts with `Builder` gives an empty built name, and the emitting
  library's class builder refuses it with `IllegalArgumentException`.
  `process` catches only the `IOException` of a write, so the exception
  escapes and the remaining classes are never processed. A reader might
  expect one badly named class to be skipped and the rest written; the code
  instead ends the round. `Process` returns `Failure` in that case, with the
  files written so far.
- **The annotated class is not checked for a no-argument constructor.**
  Neither generator checks this. `getInstance` instantiates the annotated
  type itself, `new T()`, not the generated subclass.
- **The unit test's Singleton expectations are stale.** They expect an eager
  `private static final` instance, but the code emits a lazy, non-final slot.
  The model follows the code.

## Model

| member | source | states |
|---|---|---|
| JavaStrings.IndexOf | patterns-processor/src/main/java/br/me/patterns/annotation/processor/generator/BuilderGenerator.java:176 | -1 exactly when the pattern does not occur; otherwise an index where it occurs, with no occurrence before it |
| JavaStrings.LowerCase | patterns-processor/src/main/java/br/me/patterns/annotation/processor/generator/BuilderGenerator.java:96 | same length, each character lower-cased (ASCII) |
| JavaStrings.ToUpper | patterns-processor/src/main/java/br/me/patterns/annotation/processor/generator/BuilderGenerator.java:66 | a lower-case ASCII letter becomes its capital; any other character is unchanged |
| Utils.NearestPackage | patterns-processor/src/main/java/br/me/patterns/annotation/processor/Utils.java:9-15 | the result is a package; a package input is returned as is; it lies PackageDepth steps up the enclosing chain, and no element strictly between is a package |
| Utils.GetPackage | patterns-processor/src/main/java/br/me/patterns/annotation/processor/Utils.java:9-15 | the loop returns the nearest enclosing package (the input itself if it is one), of kind PACKAGE |
| Utils.ReachesPackageIff | patterns-processor/src/main/java/br/me/patterns/annotation/processor/Utils.java:10-12 | the walk reaches a package exactly when some element of the enclosing chain is a package |
| SingletonGenerator.TargetFileName | patterns-processor/src/main/java/br/me/patterns/annotation/processor/generator/SingletonGenerator.java:32-34 | the simple name followed by `_` |
| SingletonGenerator.GeneratedShape | patterns-processor/src/main/java/br/me/patterns/annotation/processor/generator/SingletonGenerator.java:22-71 | one file in the class's package; a public class `Name_` extending the annotated type; exactly the field `instance` (annotated type, PRIVATE and STATIC, not FINAL, no initializer), then the private no-argument constructor, then `getInstance`; `getInstance` is PUBLIC STATIC, takes nothing and returns the annotated type; its body is if-null-assign-new, then return the slot |
| SingletonGenerator.Generate | patterns-processor/src/main/java/br/me/patterns/annotation/processor/generator/SingletonGenerator.java:22-30 | the one file lies in the annotated class's package and declares the class named TargetFileName, extending the annotated type; GeneratedShape states its members |
| SingletonGenerator.GetClassTypeSpec | patterns-processor/src/main/java/br/me/patterns/annotation/processor/generator/SingletonGenerator.java:40-52 | a public class with the given name extending the annotated type, whose only field is the `instance` slot and whose methods are a constructor, then `getInstance` |
| SingletonGenerator.GetInstanceFieldSpec | patterns-processor/src/main/java/br/me/patterns/annotation/processor/generator/SingletonGenerator.java:54-56 | the field `instance` of the annotated type, private and static, not final, not public, with no initializer |
| SingletonGenerator.GetConstructorSpec | patterns-processor/src/main/java/br/me/patterns/annotation/processor/generator/SingletonGenerator.java:58-60 | a private constructor with no parameters and an empty body |
| SingletonGenerator.GetInstanceMethodSpec | patterns-processor/src/main/java/br/me/patterns/annotation/processor/generator/SingletonGenerator.java:62-71 | a public static method `getInstance` with no parameters returning the annotated type |
| SingletonGenerator.AccessorEffect | patterns-processor/src/main/java/br/me/patterns/annotation/processor/generator/SingletonGenerator.java:62-71 | running the emitted `getInstance` body never answers null: on an empty slot it constructs, stores and returns the new object; on a set slot it returns the stored object and constructs nothing; the slot holds the answer afterwards |
| SingletonGenerator.StaticSlot.constructor | patterns-processor/src/main/java/br/me/patterns/annotation/processor/generator/SingletonGenerator.java:55 | the static slot of the class generated for the given annotated type starts out null, with nothing constructed |
| SingletonGenerator.StaticSlot.GetInstance | patterns-processor/src/main/java/br/me/patterns/annotation/processor/generator/SingletonGenerator.java:66-69 | on a null slot it constructs one fresh instance and stores it; on a set slot it returns the stored one and constructs nothing; the slot is non-null afterwards and holds the result; at most one construction ever; the call gives what running the emitted `getInstance` body (RunAccessor) gives |
| SingletonGenerator.CallRepeatedly | patterns-processor/src/main/java/br/me/patterns/annotation/processor/generator/SingletonGenerator.java:62-70 | over any `n` sequential calls at most one construction happens, every call returns the same object (the slot's), and an instance already stored is kept |
| BuilderGenerator.TargetFileName | patterns-processor/src/main/java/br/me/patterns/annotation/processor/generator/BuilderGenerator.java:50-52 | the simple name followed by the one-character suffix `_` |
| BuilderGenerator.TargetNamesAgree | patterns-processor/src/main/java/br/me/patterns/annotation/processor/generator/BuilderGenerator.java:23 | the builder's name is the one the Singleton generator would give, since the Builder generator borrows that generator's suffix |
| BuilderGenerator.GetTargetClassName | patterns-processor/src/main/java/br/me/patterns/annotation/processor/generator/BuilderGenerator.java:54-56 | the builder's class name: the nearest package and the target file name |
| BuilderGenerator.ClassNameToBuild | patterns-processor/src/main/java/br/me/patterns/annotation/processor/generator/BuilderGenerator.java:174-180 | succeeds exactly when `Builder` occurs in the simple name; the result is the prefix before the first occurrence; otherwise the substring throws |
| BuilderGenerator.SuffixOccurrence | patterns-processor/src/main/java/br/me/patterns/annotation/processor/generator/BuilderGenerator.java:50-52 | `Builder` occurs at a position of `name_` exactly when it occurs there in `name` |
| BuilderGenerator.SuffixKeepsPattern | patterns-processor/src/main/java/br/me/patterns/annotation/processor/generator/BuilderGenerator.java:50-52 | `Builder` occurs in `name_` exactly when it occurs in `name` |
| BuilderGenerator.BuiltNameFromAnnotated | patterns-processor/src/main/java/br/me/patterns/annotation/processor/generator/BuilderGenerator.java:174-180 | for an annotated class, the built name is its simple name cut at the first `Builder`; naming throws exactly when `Builder` is absent |
| BuilderGenerator.CutAt | patterns-processor/src/main/java/br/me/patterns/annotation/processor/generator/BuilderGenerator.java:176-177 | when `Builder` starts at `n` and no `B` comes before it, the built name is the first `n` characters |
| BuilderGenerator.BuiltNameExamples | patterns-processor/src/test/java/br/me/patterns/annotation/processor/generator/BuilderGeneratorUnitTest.java:68-76 | `CarroBuilder_` builds `Carro` |
| BuilderGenerator.BuiltVarExample | patterns-processor/src/test/java/br/me/patterns/annotation/processor/generator/BuilderGeneratorUnitTest.java:195-196 | the local of `build()` for `CarroBuilder_` is `carro` |
| BuilderGenerator.FirstOccurrenceExample | patterns-processor/src/main/java/br/me/patterns/annotation/processor/generator/BuilderGenerator.java:176-177 | only the first `Builder` counts: `MyBuilderOfBuilder_` builds `My` |
| BuilderGenerator.BuiltNameMissingPattern | patterns-processor/src/main/java/br/me/patterns/annotation/processor/generator/BuilderGenerator.java:176-177 | a name without `Builder`, such as `Carro_`, makes naming throw |
| BuilderGenerator.SetterName | patterns-processor/src/main/java/br/me/patterns/annotation/processor/generator/BuilderGenerator.java:66 | `set`, then the field's first character upper-cased, then the rest of the field unchanged; requires a non-empty field (the model's error path covers the empty one) |
| BuilderGenerator.SetterNameRoundTrip | patterns-processor/src/main/java/br/me/patterns/annotation/processor/generator/BuilderGenerator.java:66 | lower-casing the fourth character of the setter name and keeping the rest gives the field back, when the field does not start with a capital |
| BuilderGenerator.SetterNameInjective | patterns-processor/src/main/java/br/me/patterns/annotation/processor/generator/BuilderGenerator.java:66 | two fields that do not start with a capital get the same setter name only if they are equal |
| BuilderGenerator.Processed | patterns-processor/src/main/java/br/me/patterns/annotation/processor/generator/BuilderGenerator.java:32-39 | a member is kept exactly when its type kind is primitive or DECLARED; no more members than the input |
| BuilderGenerator.ProcessedAppend | patterns-processor/src/main/java/br/me/patterns/annotation/processor/generator/BuilderGenerator.java:32-39 | the filter distributes over concatenation, so processed members keep their declaration order |
| BuilderGenerator.ProcessedAll | patterns-processor/src/main/java/br/me/patterns/annotation/processor/generator/BuilderGenerator.java:58-61 | when every member is primitive or declared, all of them are processed, in order |
| BuilderGenerator.IsElementToProcess | patterns-processor/src/main/java/br/me/patterns/annotation/processor/generator/BuilderGenerator.java:58-61 | a member is skipped exactly when its type kind is not primitive and not DECLARED: void, array, executable (a method or constructor), type variable, wildcard, error and the other non-declared kinds |
| BuilderGenerator.ConstructorShape | patterns-processor/src/main/java/br/me/patterns/annotation/processor/generator/BuilderGenerator.java:201-203 | a public constructor with no parameters and an empty body |
| BuilderGenerator.BuilderStart | patterns-processor/src/main/java/br/me/patterns/annotation/processor/generator/BuilderGenerator.java:182-189 | the builder type before any member: public, named by the builder's class name, extending the annotated type, no fields, and only the constructor |
| BuilderGenerator.GetBuiltClassTypeSpec | patterns-processor/src/main/java/br/me/patterns/annotation/processor/generator/BuilderGenerator.java:191-199 | succeeds exactly when the built name can be derived and is not empty; an empty name is refused with IllegalArgument; the type is named by the built name and has no fields yet (its full shape is in BuiltFileShape) |
| BuilderGenerator.Setters | patterns-processor/src/main/java/br/me/patterns/annotation/processor/generator/BuilderGenerator.java:63-78 | one setter per member, the i-th for the i-th member |
| BuilderGenerator.CopyLines | patterns-processor/src/main/java/br/me/patterns/annotation/processor/generator/BuilderGenerator.java:133-136 | one `v.f = f;` line per member, the i-th for the i-th member |
| BuilderGenerator.BuiltFields | patterns-processor/src/main/java/br/me/patterns/annotation/processor/generator/BuilderGenerator.java:80-90 | one public field per member, the i-th for the i-th member |
| BuilderGenerator.Entries | patterns-processor/src/main/java/br/me/patterns/annotation/processor/generator/BuilderGenerator.java:164-166 | one toString entry per member, the i-th for the i-th member |
| BuilderGenerator.BuilderClassHelper.constructor | patterns-processor/src/main/java/br/me/patterns/annotation/processor/generator/BuilderGenerator.java:122-127 | the builder type starts as public, extends the annotated type and holds the constructor; no copy lines yet |
| BuilderGenerator.BuilderClassHelper.VisitMethod | patterns-processor/src/main/java/br/me/patterns/annotation/processor/generator/BuilderGenerator.java:129-131 | appends the method to the builder type and changes nothing else |
| BuilderGenerator.BuilderClassHelper.VisitFieldName | patterns-processor/src/main/java/br/me/patterns/annotation/processor/generator/BuilderGenerator.java:133-136 | appends the line `v.f = f;`, where `v` is the built name lower-cased |
| BuilderGenerator.BuiltClassHelper.constructor | patterns-processor/src/main/java/br/me/patterns/annotation/processor/generator/BuilderGenerator.java:147-154 | the built type starts as public, serializable, with the constructor; the toString block starts with the opening and the title |
| BuilderGenerator.BuiltClassHelper.VisitField | patterns-processor/src/main/java/br/me/patterns/annotation/processor/generator/BuilderGenerator.java:156-158 | appends the field |
| BuilderGenerator.BuiltClassHelper.VisitMethod | patterns-processor/src/main/java/br/me/patterns/annotation/processor/generator/BuilderGenerator.java:160-162 | appends the method |
| BuilderGenerator.BuiltClassHelper.VisitFieldName | patterns-processor/src/main/java/br/me/patterns/annotation/processor/generator/BuilderGenerator.java:164-166 | appends the entry `"f=" + f + "," +` |
| BuilderGenerator.BuiltClassHelper.GetToStringCodeBlock | patterns-processor/src/main/java/br/me/patterns/annotation/processor/generator/BuilderGenerator.java:168-171 | appends the closing `"}"` to the block and returns the whole block |
| BuilderGenerator.AddBuilderMethodToBuilderClass | patterns-processor/src/main/java/br/me/patterns/annotation/processor/generator/BuilderGenerator.java:63-78 | adds the member's setter and its copy line; throws, changing nothing, exactly when the name is empty |
| BuilderGenerator.AddFieldToBuiltClass | patterns-processor/src/main/java/br/me/patterns/annotation/processor/generator/BuilderGenerator.java:80-90 | adds the member's public field and its toString entry |
| BuilderGenerator.AddBuildMethodToBuilderClass | patterns-processor/src/main/java/br/me/patterns/annotation/processor/generator/BuilderGenerator.java:92-105 | appends `build()`, which returns the built class of the class's package, uses the lower-cased built name as its local, and holds the copy lines accumulated so far |
| BuilderGenerator.AddToStringMethodToBuiltClass | patterns-processor/src/main/java/br/me/patterns/annotation/processor/generator/BuilderGenerator.java:107-115 | closes the block and appends `toString()` with it |
| BuilderGenerator.GetJavaFile | patterns-processor/src/main/java/br/me/patterns/annotation/processor/generator/BuilderGenerator.java:205-207 | the file lies in the nearest package |
| BuilderGenerator.VisitMember | patterns-processor/src/main/java/br/me/patterns/annotation/processor/generator/BuilderGenerator.java:32-39 | a skipped member changes nothing; a processed one adds exactly its setter, copy line, field and entry; only a processed member with an empty name throws |
| BuilderGenerator.VisitMembers | patterns-processor/src/main/java/br/me/patterns/annotation/processor/generator/BuilderGenerator.java:32-39 | the loop succeeds exactly when every processed member is named; then both helpers hold the outputs for the processed members, in order |
| BuilderGenerator.Generate | patterns-processor/src/main/java/br/me/patterns/annotation/processor/generator/BuilderGenerator.java:25-48 | the method, with its helpers and its loop, returns what GenerateSpec describes (both files, or the exception) |
| BuilderGenerator.GenerateSucceedsIff | patterns-processor/src/main/java/br/me/patterns/annotation/processor/generator/BuilderGenerator.java:25-48 | `generate` succeeds exactly when `Builder` occurs in the class's simple name but not at its start, and every processed member has a non-empty name |
| BuilderGenerator.BuilderPrefixFails | patterns-processor/src/main/java/br/me/patterns/annotation/processor/generator/BuilderGenerator.java:191-199 | a class whose simple name starts with `Builder` gets the empty built name, and `generate` throws IllegalArgument |
| BuilderGenerator.GenerateResult | patterns-processor/src/main/java/br/me/patterns/annotation/processor/generator/BuilderGenerator.java:25-48 | a success is exactly two files, both in the class's nearest package; a failure is IllegalArgument exactly when the built name is empty, and a substring error otherwise |
| BuilderGenerator.BuilderFileShape | patterns-processor/src/main/java/br/me/patterns/annotation/processor/generator/BuilderGenerator.java:182-189 | exactly two files; the builder is public, named `Name_` and extends the annotated type, with no fields; its methods are the constructor first, one per processed member, and `build()` last |
| BuilderGenerator.SetterShape | patterns-processor/src/main/java/br/me/patterns/annotation/processor/generator/BuilderGenerator.java:63-78 | the (i+1)-th builder method is the i-th member's setter: public, named SetterName, returning the builder class, taking the field's type and name; its body is `super.f=f; return this;` |
| BuilderGenerator.BuildMethodShape | patterns-processor/src/main/java/br/me/patterns/annotation/processor/generator/BuilderGenerator.java:92-105 | `build()` is public, takes nothing and returns the built class; it declares `v = new Built()` with `v` the built name lower-cased, then has one `v.f = f;` per processed member in order, then `return v` |
| BuilderGenerator.BuiltFileShape | patterns-processor/src/main/java/br/me/patterns/annotation/processor/generator/BuilderGenerator.java:191-199 | the built class is public, named by the built name, implements only Serializable and has no superclass; one public field per processed member (same type and name, in order, no initializer); then the constructor and an `@Override public String toString()` whose single statement is the block opening, title, entries, closing |
| BuilderGenerator.ParallelCounts | patterns-processor/src/main/java/br/me/patterns/annotation/processor/generator/BuilderGenerator.java:37-38 | setters, copy lines, built fields and toString entries each number exactly the processed members |
| BuilderGenerator.EntriesValue | patterns-processor/src/main/java/br/me/patterns/annotation/processor/generator/BuilderGenerator.java:164-166 | the entries evaluate to `f=v,` for each field in order |
| BuilderGenerator.BlockValue | patterns-processor/src/main/java/br/me/patterns/annotation/processor/generator/BuilderGenerator.java:150-169 | the whole block evaluates to `Name {f1=v1,...,fN=vN,}` |
| BuilderGenerator.ToStringValue | patterns-processor/src/main/java/br/me/patterns/annotation/processor/generator/BuilderGenerator.java:107-115 | the generated `toString` returns `Name {f1=v1,...,fN=vN,}` for the built name and the processed members |
| BuilderGenerator.RenderedShape | patterns-processor/src/test/java/br/me/patterns/annotation/processor/generator/BuilderGeneratorUnitTest.java:266-284 | the string form ends `,}` when there are fields, with a comma after the last one, and is `Name {}` when there are none |
| BuilderSemantics.SetterEffect | patterns-processor/src/main/java/br/me/patterns/annotation/processor/generator/BuilderGenerator.java:72-73 | a generated setter stores its argument in its field, changes no other field and returns the builder |
| BuilderSemantics.ApplySetters | patterns-processor/src/main/java/br/me/patterns/annotation/processor/generator/BuilderGenerator.java:63-78 | any sequence of setter calls succeeds, keeps the builder's fields, and leaves each field with the last value set (its initial value if never set) |
| BuilderSemantics.CopyAllValue | patterns-processor/src/main/java/br/me/patterns/annotation/processor/generator/BuilderGenerator.java:133-136 | after the copy lines each member's field holds the builder's value, and the other fields are untouched |
| BuilderSemantics.RunCopyLines | patterns-processor/src/main/java/br/me/patterns/annotation/processor/generator/BuilderGenerator.java:133-136 | running the copy lines on the local amounts to copying every member's field into it |
| BuilderSemantics.BuildEffect | patterns-processor/src/main/java/br/me/patterns/annotation/processor/generator/BuilderGenerator.java:97-102 | `build()` returns a new object holding the builder's value of every processed field |
| BuilderSemantics.SetThenBuild | patterns-processor/src/main/java/br/me/patterns/annotation/processor/generator/BuilderGenerator.java:63-105 | setting fields through the generated builder and then calling `build()` gives each processed field its last value set (the inherited one if never set); other fields keep the new object's initial values |
| PatternsProcessor.SupportedAnnotationTypes | patterns-processor/src/main/java/br/me/patterns/annotation/processor/PatternsProcessor.java:58-67 | exactly the two canonical names `br.me.patterns.annotation.Singleton` and `br.me.patterns.annotation.Builder` |
| PatternsProcessor.SingletonFiles | patterns-processor/src/main/java/br/me/patterns/annotation/processor/PatternsProcessor.java:36-39 | one file per Singleton class, the i-th generated from the i-th class |
| PatternsProcessor.Processor.constructor | patterns-processor/src/main/java/br/me/patterns/annotation/processor/PatternsProcessor.java:22 | a processor over the given Filer that has attempted, persisted and printed nothing yet |
| PatternsProcessor.Processor.WriteFile | patterns-processor/src/main/java/br/me/patterns/annotation/processor/PatternsProcessor.java:50-56 | one attempt; an accepted file is persisted with no message; a refused one adds one warning naming the attempt and nothing else |
| PatternsProcessor.Processor.WriteFiles | patterns-processor/src/main/java/br/me/patterns/annotation/processor/PatternsProcessor.java:44-46 | every file is attempted in order, whatever the Filer answers |
| PatternsProcessor.Processor.WriteSingletons | patterns-processor/src/main/java/br/me/patterns/annotation/processor/PatternsProcessor.java:36-39 | one attempt per Singleton class, in order |
| PatternsProcessor.Processor.WriteBuilders | patterns-processor/src/main/java/br/me/patterns/annotation/processor/PatternsProcessor.java:41-47 | attempts each class's two files in order, up to the first class whose generation throws; returns that exception |
| PatternsProcessor.Processor.ProcessAnnotations | patterns-processor/src/main/java/br/me/patterns/annotation/processor/PatternsProcessor.java:35-48 | the attempts are exactly the round's planned files, Singleton files first; they do not depend on the Filer's answers; persisted files and warnings follow the Filer attempt by attempt; the result is the generation error that ended the round, if any |
| PatternsProcessor.Processor.Process | patterns-processor/src/main/java/br/me/patterns/annotation/processor/PatternsProcessor.java:25-33 | with no annotation: answers false and changes nothing; otherwise: prints the NOTE with the annotation count, processes the round, and answers true, or the generation error that ended the round |
| PatternsProcessor.OneOutcomePerAttempt | patterns-processor/src/main/java/br/me/patterns/annotation/processor/PatternsProcessor.java:50-56 | each attempt gives exactly one of a persisted file and a warning; every warning names a refused attempt of the range; the warnings' attempts strictly increase, so none is repeated; every refused attempt has its warning |
| PatternsProcessor.WrittenIsAccepted | patterns-processor/src/main/java/br/me/patterns/annotation/processor/PatternsProcessor.java:50-56 | the persisted files are exactly the files whose attempts the Filer accepts, in the order they were tried (Accepted, read from the first file on) |
| PatternsProcessor.AllAccepted | patterns-processor/src/main/java/br/me/patterns/annotation/processor/PatternsProcessor.java:50-56 | with a Filer that accepts everything, every file is persisted and no warning is printed |
| PatternsProcessor.RunStops | patterns-processor/src/main/java/br/me/patterns/annotation/processor/PatternsProcessor.java:41-47 | once a Builder class has thrown, the later classes change nothing |
| PatternsProcessor.RunShape | patterns-processor/src/main/java/br/me/patterns/annotation/processor/PatternsProcessor.java:41-47 | the Builder loop writes whole pairs of files in class order, one pair per class until the first exception, and reports that class's exception |
| PatternsProcessor.BuilderRunShape | patterns-processor/src/main/java/br/me/patterns/annotation/processor/PatternsProcessor.java:41-47 | the j-th pair of Builder files is the j-th class's builder file, then its built file; with no exception there are two per class; otherwise the loop stops at the first class that throws |
| PatternsProcessor.RoundOrder | patterns-processor/src/main/java/br/me/patterns/annotation/processor/PatternsProcessor.java:35-48 | every Singleton file comes before every Builder file; with no exception a round tries exactly one write per Singleton class and two per Builder class |
| CarroExample.CarroPackage | patterns-processor/src/test/java/br/me/patterns/annotation/processor/generator/BuilderGeneratorUnitTest.java:117 | the nested test class's package is the test package, two enclosing steps up |
| CarroExample.CarroProcessed | patterns-processor/src/test/java/br/me/patterns/annotation/processor/generator/BuilderGeneratorUnitTest.java:289-304 | the constructor is skipped; the fourteen fields are processed in declaration order |
| CarroExample.CarroSetterNames | patterns-processor/src/test/java/br/me/patterns/annotation/processor/generator/BuilderGeneratorUnitTest.java:125-193 | the fourteen fields get the setters the test expects: `setCor`, `setMarca`, `setAnoFabricacao` and so on to `setRodasLigaLeve` |
| CarroExample.CarroToStringBlock | patterns-processor/src/test/java/br/me/patterns/annotation/processor/generator/BuilderGeneratorUnitTest.java:266-284 | the generated `Carro` class lies in the test package, and its `toString` returns the opening, the title `Carro`, one entry per field in declaration order, and the closing brace |

## Left out

- Source rendering by the code-emission library is not modelled: no import
  lists, indentation or blank lines, and no `JavaFile.toString()`.
  Generated code is structure: types, members and statements.
- The compiler's element model (`Element`, `TypeMirror`, `TypeName.get`)
  is replaced by the descriptors in `Elements`. A type is a type name.
  The host guarantees a package on every enclosing chain, and `getPackage`
  and the generators require it.
- Writing to the Filer and the text of messages are I/O. The Filer's answer
  per attempt is the oracle `filer`. A warning records the attempt number,
  not the exception text.
- `getSupportedSourceVersion` just returns the host's latest version.
- The iteration order of `getElementsAnnotatedWith` is the host's. A round
  lists its classes as sequences, in any order the host picks.
- Concurrent calls of the generated `getInstance` are not modelled. The race
  on its unsynchronised check-then-assign is a concurrency concern; only
  sequential calls are modelled.
- Locale-dependent and non-ASCII case mapping of `toUpperCase` and
  `toLowerCase` are not modelled. Only ASCII letters change case.
- The `app` module is not part of this model: an Android activity, a demo
  class and the `CarroBuilder` fixture.
- Whether the generated code compiles is not modelled, for example when
  the annotated class has no no-argument constructor.
- BuilderSemantics.SetThenBuild: requires the built-class local variable
  (`carro`) to be distinct from every processed field's name. A field named
  like the local would be shadowed in `build()`, and the model does not
  state what the Java compiler makes of that.
- BuilderGenerator.SetterNameRoundTrip: stated only for fields that do not
  start with a capital letter. A field that starts with a capital loses its
  case in the setter name.
- The rendered `toString` text of the fourteen-field test class is not
  stated as one literal string. CarroToStringBlock pins its parts (the
  title `Carro` and one entry per field, in order), and ToStringValue says
  how those parts render. Checking the whole literal costs the verifier
  more than its resource limit allows.
- `getBuildMethodCodeBlock` (BuilderGenerator.java:138-140) only reads the
  builder helper's copy lines, so the model reads the field directly in
  AddBuildMethodToBuilderClass. That the lines are the CopyLines of the
  processed members is stated by VisitMembers' postcondition (HelpersAfter).
- BuilderGenerator.GetBuiltClassTypeSpec: of the names the emitting
  library's class builder refuses, only the empty one is modelled. A built
  name that is a Java keyword (`forBuilder` gives `for`) is refused too, and
  the model accepts it. Other generated names are not validated.
