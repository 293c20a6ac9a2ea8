/**
 * The class the Builder generator's unit test feeds it: `CarroBuilder`, a
 * class nested in the test class, with fourteen fields (an `int`, six
 * `String`s and seven `boolean`s) and its implicit constructor. The lemmas
 * pin where the generated files go and which members are processed.
 */
module CarroExample {
  import opened Wrappers
  import opened Elements
  import opened Poet
  import opened JavaStrings
  import Utils
  import opened BuilderGenerator

  const TestPackage := "br.me.patterns.annotation.processor.generator"

  /** `CarroBuilder`, nested in the test class, which lies in the test package. */
  const CarroElement := Element(Class, "CarroBuilder",
    Some(Element(Class, "BuilderGeneratorUnitTest", Some(Element(Package, TestPackage, None)))))

  /** The fourteen fields, in declaration order. */
  const CarroFields: seq<Member> := [
    Member("cor", Declared, "String"),
    Member("marca", Declared, "String"),
    Member("anoFabricacao", Int, "int"),
    Member("modelo", Declared, "String"),
    Member("combustivel", Declared, "String"),
    Member("placa", Declared, "String"),
    Member("quilometragem", Declared, "String"),
    Member("arCondicionado", Boolean, "boolean"),
    Member("direcaoEletrica", Boolean, "boolean"),
    Member("direcaoHidraulica", Boolean, "boolean"),
    Member("vidrosEletricos", Boolean, "boolean"),
    Member("arQuente", Boolean, "boolean"),
    Member("sensorEstacionamento", Boolean, "boolean"),
    Member("rodasLigaLeve", Boolean, "boolean")
  ]

  /** The annotated class: the implicit constructor (an executable member) and the fields. */
  const Carro := TypeElement(CarroElement, TestPackage + ".BuilderGeneratorUnitTest.CarroBuilder",
    [Member(ConstructorName, Executable, "void")] + CarroFields)

  /** The generated classes live in the test package, two enclosing steps up. */
  lemma CarroPackage()
    ensures Utils.ReachesPackage(CarroElement) && Utils.PackageDepth(CarroElement) == 2
    ensures Utils.NearestPackage(CarroElement).name == TestPackage
  {}

  /** The constructor is skipped; the fourteen fields are processed in declaration order. */
  lemma CarroProcessed()
    ensures Processed(Carro.members) == CarroFields
  {
    forall i | 0 <= i < |CarroFields| ensures IsElementToProcess(CarroFields[i]) {
      if i < 2 {} else if i == 2 {} else if i < 7 {} else {}
    }
    ProcessedAll(CarroFields);
    var init := Member(ConstructorName, Executable, "void");
    ProcessedAppend([init], CarroFields);
    assert Processed([init]) == [];
  }

  /**
   * The generated `Carro` class lies in the test package, and its
   * `toString` returns the opening, the title `Carro`, one entry per field
   * in declaration order, and the closing brace.
   */
  lemma CarroToStringBlock()
    ensures Utils.ReachesPackage(Carro.element) && GenerateSpec(Carro).Success?
    ensures var f := GenerateSpec(Carro).value[1];
      f.packageName == TestPackage && f.typeSpec.name == "Carro" && |f.typeSpec.methods| == 2 &&
      f.typeSpec.methods[1].body == [ReturnConcat([Opening, Title("Carro")] + Entries(CarroFields) + [Closing])]
  {
    CarroBuiltName();
    CarroProcessed();
    CarroNamed();
    ToStringBlockOf(Carro, "Carro", CarroFields);
  }

  lemma CarroBuiltName()
    ensures Utils.ReachesPackage(Carro.element) && ClassNameToBuild(BuilderClassName(Carro)) == Success("Carro")
  {
    CarroPackage();
    assert TargetFileName(Carro) == "CarroBuilder_";
    BuiltNameExamples(TestPackage);
  }

  lemma CarroNamed()
    ensures AllNamed(CarroFields)
  {}

  /** The built file of any class that generates, stated through its built name and processed members. */
  lemma ToStringBlockOf(t: TypeElement, built: string, ps: seq<Member>)
    requires Utils.ReachesPackage(t.element) && ClassNameToBuild(BuilderClassName(t)) == Success(built)
    requires built != "" && Processed(t.members) == ps && AllNamed(ps)
    ensures GenerateSpec(t).Success?
    ensures var f := GenerateSpec(t).value[1];
      f.packageName == Utils.NearestPackage(t.element).name && f.typeSpec.name == built &&
      |f.typeSpec.methods| == 2 &&
      f.typeSpec.methods[1].body == [ReturnConcat([Opening, Title(built)] + Entries(ps) + [Closing])]
  {
    BuiltFileShape(t);
  }

  /** The fourteen setters the test expects, one per field, in declaration order. */
  lemma CarroSetterNames()
    ensures SetterName("cor") == "setCor"
    ensures SetterName("marca") == "setMarca"
    ensures SetterName("anoFabricacao") == "setAnoFabricacao"
    ensures SetterName("modelo") == "setModelo"
    ensures SetterName("combustivel") == "setCombustivel"
    ensures SetterName("placa") == "setPlaca"
    ensures SetterName("quilometragem") == "setQuilometragem"
    ensures SetterName("arCondicionado") == "setArCondicionado"
    ensures SetterName("direcaoEletrica") == "setDirecaoEletrica"
    ensures SetterName("direcaoHidraulica") == "setDirecaoHidraulica"
    ensures SetterName("vidrosEletricos") == "setVidrosEletricos"
    ensures SetterName("arQuente") == "setArQuente"
    ensures SetterName("sensorEstacionamento") == "setSensorEstacionamento"
    ensures SetterName("rodasLigaLeve") == "setRodasLigaLeve"
  {
    SetterCor();
    SetterMarca();
    SetterAnoFabricacao();
    SetterModelo();
    SetterCombustivel();
    SetterPlaca();
    SetterQuilometragem();
    SetterArCondicionado();
    SetterDirecaoEletrica();
    SetterDirecaoHidraulica();
    SetterVidrosEletricos();
    SetterArQuente();
    SetterSensorEstacionamento();
    SetterRodasLigaLeve();
  }

  // One literal per proof: several literal strings in one proof cost the solver too much.
  lemma SetterCor() ensures SetterName("cor") == "setCor" {}
  lemma SetterMarca() ensures SetterName("marca") == "setMarca" {}
  lemma SetterAnoFabricacao() ensures SetterName("anoFabricacao") == "setAnoFabricacao" {}
  lemma SetterModelo() ensures SetterName("modelo") == "setModelo" {}
  lemma SetterCombustivel() ensures SetterName("combustivel") == "setCombustivel" {}
  lemma SetterPlaca() ensures SetterName("placa") == "setPlaca" {}
  lemma SetterQuilometragem() ensures SetterName("quilometragem") == "setQuilometragem" {}
  lemma SetterArCondicionado() ensures SetterName("arCondicionado") == "setArCondicionado" {}
  lemma SetterDirecaoEletrica() ensures SetterName("direcaoEletrica") == "setDirecaoEletrica" {}
  lemma SetterDirecaoHidraulica() ensures SetterName("direcaoHidraulica") == "setDirecaoHidraulica" {}
  lemma SetterVidrosEletricos() ensures SetterName("vidrosEletricos") == "setVidrosEletricos" {}
  lemma SetterArQuente() ensures SetterName("arQuente") == "setArQuente" {}
  lemma SetterSensorEstacionamento() ensures SetterName("sensorEstacionamento") == "setSensorEstacionamento" {}
  lemma SetterRodasLigaLeve() ensures SetterName("rodasLigaLeve") == "setRodasLigaLeve" {}
}
