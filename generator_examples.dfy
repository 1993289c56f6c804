/**
 * Schemas from the data model generator's unit tests and the classes generated for them.
 */
module GeneratorExamples {
  import opened Wrappers
  import opened JsonSchema
  import opened DataModelGenerator

  /** A class is determined by the types inferred for its properties, one by one. */
  lemma BuildClassFrom(root: Schema, hints: HintDictionary, className: string, node: Schema, expected: seq<PropertyDef>)
    requires |expected| == |node.properties|
    requires forall i | 0 <= i < |expected| ::
      InferProperty(root, hints, className, node.properties[i]) == Success(expected[i].shape)
      && PascalCase(node.properties[i].name) == expected[i].name
    ensures BuildClass(root, hints, className, node) == Success(ClassDef(className, expected))
  {
    var r := BuildClass(root, hints, className, node);
    assert r.Success?;
    assert r.value.properties == expected;
  }

  /** An object definition puts its class in front of those of the definitions after it. */
  lemma DefineClassesStep(root: Schema, hints: HintDictionary, defs: seq<Property>, c: ClassDef, rest: seq<DefinedClass>)
    requires defs != [] && IsObjectDefinition(defs[0].schema)
    requires BuildClass(root, hints, PascalCase(defs[0].name), defs[0].schema) == Success(c)
    requires DefineClasses(root, hints, defs[1..]) == Success(rest)
    ensures DefineClasses(root, hints, defs) == Success([DefinedClass(defs[0].name, c)] + rest)
  {
  }

  function BuiltInTypesSchema(): Schema {
    ObjectSchema([
      Property("stringProp", OfType(StringType)),
      Property("numberProp", OfType(NumberType)),
      Property("booleanProp", OfType(BooleanType)),
      Property("integerProp", OfType(IntegerType))], [])
  }

  lemma BuiltInTypesNames()
    ensures PascalCase("c") == "C"
    ensures PascalCase("stringProp") == "StringProp"
    ensures PascalCase("numberProp") == "NumberProp"
    ensures PascalCase("booleanProp") == "BooleanProp"
    ensures PascalCase("integerProp") == "IntegerProp"
  {
  }

  /** The "Properties" test schema: one property of each built-in type. */
  lemma BuiltInTypesExample()
    ensures Generate(BuiltInTypesSchema(), "c", map[])
      == Success(DataModel(ClassDef("C", [
        PropertyDef("StringProp", Str),
        PropertyDef("NumberProp", Dbl),
        PropertyDef("BooleanProp", Bool),
        PropertyDef("IntegerProp", Int)]), []))
  {
    BuiltInTypesNames();
    BuildClassFrom(BuiltInTypesSchema(), map[], "C", BuiltInTypesSchema(), [
      PropertyDef("StringProp", Str),
      PropertyDef("NumberProp", Dbl),
      PropertyDef("BooleanProp", Bool),
      PropertyDef("IntegerProp", Int)]);
  }

  /** A root whose "type" is "number" is refused, and the message names "number". */
  lemma RootOfTypeNumberExample()
    ensures Generate(OfType(NumberType), "c", map[]) == Failure(RootNotObject("number"))
    ensures Contains(Message(RootNotObject("number")), "number")
  {
    MessageQuotesCulprit(RootNotObject("number"));
  }

  /** The first property whose type cannot be inferred makes generation fail with its error. */
  lemma FirstPropertyFails(root: Schema, name: string, hints: HintDictionary, e: GenerationError)
    requires root.jsonType == Some(ObjectType) && |root.properties| > 0
    requires InferProperty(root, hints, PascalCase(name), root.properties[0]) == Failure(e)
    ensures Generate(root, name, hints) == Failure(e)
  {
  }

  /** A "$ref" into another document is refused, quoting the reference. */
  lemma NonFragmentReferenceExample()
    ensures Generate(ObjectSchema([Property("p", Ref("https://example.com/pschema.schema.json/#"))], []), "c", map[])
      == Failure(UnsupportedReference("https://example.com/pschema.schema.json/#"))
  {
    var reference := "https://example.com/pschema.schema.json/#";
    assert !IsFragment(reference);
    FirstPropertyFails(ObjectSchema([Property("p", Ref(reference))], []), "c", map[], UnsupportedReference(reference));
  }

  /** A "$ref" outside "#/definitions/" is refused, quoting the reference. */
  lemma NonDefinitionPointerExample()
    ensures Generate(ObjectSchema([Property("p", Ref("#/notDefinitions/p"))], []), "c", map[])
      == Failure(MalformedPointer("#/notDefinitions/p"))
  {
    var reference := "#/notDefinitions/p";
    assert IsFragment(reference);
    assert !(DefinitionsPointer <= reference) by {
      assert reference[2] != DefinitionsPointer[2];
    }
    FirstPropertyFails(ObjectSchema([Property("p", Ref(reference))], []), "c", map[], MalformedPointer(reference));
  }

  /** A "$ref" to a missing definition is refused, quoting the missing name. */
  lemma UndefinedDefinitionExample()
    ensures Generate(ObjectSchema([Property("p", Ref("#/definitions/nonExistentDefinition"))],
        [Property("p", Schema(None, None, None, None, None, [], [], None))]), "c", map[])
      == Failure(UndefinedReference("nonExistentDefinition"))
  {
    var root := ObjectSchema([Property("p", Ref("#/definitions/nonExistentDefinition"))],
        [Property("p", Schema(None, None, None, None, None, [], [], None))]);
    assert DefinitionsPointer + "nonExistentDefinition" == "#/definitions/nonExistentDefinition";
    assert "nonExistentDefinition" !in Names(root.definitions);
    ResolveDefinitionPointer(root, "nonExistentDefinition");
    FirstPropertyFails(root, "c", map[], UndefinedReference("nonExistentDefinition"));
  }

  /** The messages of the three refused references quote what the tests look for. */
  lemma NonFragmentReferenceMessage()
    ensures Contains(Message(Generate(ObjectSchema([Property("p", Ref("https://example.com/pschema.schema.json/#"))], []),
      "c", map[]).error), "https://example.com/pschema.schema.json/#")
  {
    NonFragmentReferenceExample();
    MessageQuotesCulprit(UnsupportedReference("https://example.com/pschema.schema.json/#"));
  }

  lemma NonDefinitionPointerMessage()
    ensures Contains(Message(Generate(ObjectSchema([Property("p", Ref("#/notDefinitions/p"))], []),
      "c", map[]).error), "#/notDefinitions/p")
  {
    NonDefinitionPointerExample();
    MessageQuotesCulprit(MalformedPointer("#/notDefinitions/p"));
  }

  lemma UndefinedDefinitionMessage()
    ensures Contains(Message(Generate(ObjectSchema([Property("p", Ref("#/definitions/nonExistentDefinition"))],
        [Property("p", Schema(None, None, None, None, None, [], [], None))]), "c", map[]).error),
      "nonExistentDefinition")
  {
    UndefinedDefinitionExample();
    MessageQuotesCulprit(UndefinedReference("nonExistentDefinition"));
  }

  function ColorSchema(): Schema {
    ObjectSchema([
      Property("red", OfType(IntegerType)),
      Property("green", OfType(IntegerType)),
      Property("blue", OfType(IntegerType))], [])
  }

  function ConsoleWindowSchema(): Schema {
    ObjectSchema([
      Property("foregroundColor", Ref("#/definitions/color")),
      Property("backgroundColor", Ref("#/definitions/color"))],
      [Property("color", ColorSchema())])
  }

  lemma ConsoleWindowNames()
    ensures PascalCase("consoleWindow") == "ConsoleWindow"
    ensures PascalCase("foregroundColor") == "ForegroundColor"
    ensures PascalCase("backgroundColor") == "BackgroundColor"
    ensures PascalCase("color") == "Color"
    ensures PascalCase("red") == "Red"
    ensures PascalCase("green") == "Green"
    ensures PascalCase("blue") == "Blue"
  {
  }

  lemma ColorClass()
    ensures BuildClass(ConsoleWindowSchema(), map[], "Color", ColorSchema())
      == Success(ClassDef("Color", [PropertyDef("Red", Int), PropertyDef("Green", Int), PropertyDef("Blue", Int)]))
  {
    ConsoleWindowNames();
    BuildClassFrom(ConsoleWindowSchema(), map[], "Color", ColorSchema(),
      [PropertyDef("Red", Int), PropertyDef("Green", Int), PropertyDef("Blue", Int)]);
  }

  lemma ConsoleWindowClass()
    ensures BuildClass(ConsoleWindowSchema(), map[], "ConsoleWindow", ConsoleWindowSchema())
      == Success(ClassDef("ConsoleWindow", [
          PropertyDef("ForegroundColor", ClassRef("color")),
          PropertyDef("BackgroundColor", ClassRef("color"))]))
  {
    var root := ConsoleWindowSchema();
    assert DefinitionsPointer + "color" == "#/definitions/color";
    assert Lookup(root.definitions, "color") == Some(ColorSchema());
    RefToObjectDefinitionIsClass(root, "color", ColorSchema());
    ConsoleWindowNames();
    BuildClassFrom(root, map[], "ConsoleWindow", root, [
      PropertyDef("ForegroundColor", ClassRef("color")),
      PropertyDef("BackgroundColor", ClassRef("color"))]);
  }

  /** Two properties referring to the "color" definition share its generated class `Color`. */
  lemma ConsoleWindowExample()
    ensures Generate(ConsoleWindowSchema(), "consoleWindow", map[])
      == Success(DataModel(
        ClassDef("ConsoleWindow", [
          PropertyDef("ForegroundColor", ClassRef("color")),
          PropertyDef("BackgroundColor", ClassRef("color"))]),
        [DefinedClass("color", ClassDef("Color", [
          PropertyDef("Red", Int), PropertyDef("Green", Int), PropertyDef("Blue", Int)]))]))
  {
    var defs := ConsoleWindowSchema().definitions;
    ConsoleWindowNames();
    ConsoleWindowClass();
    ColorClass();
    assert defs[1..] == [];
    DefineClassesStep(ConsoleWindowSchema(), map[], defs,
      ClassDef("Color", [PropertyDef("Red", Int), PropertyDef("Green", Int), PropertyDef("Blue", Int)]), []);
    var color := DefinedClass("color", ClassDef("Color", [PropertyDef("Red", Int), PropertyDef("Green", Int), PropertyDef("Blue", Int)]));
    assert [color] + [] == [color];
  }

  function DefinitionsSchema(): Schema {
    ObjectSchema([Property("rootProp", OfType(BooleanType))], [
      Property("def1", ObjectSchema([Property("prop1", OfType(StringType))], [])),
      Property("def2", ObjectSchema([Property("prop2", OfType(IntegerType))], []))])
  }

  lemma DefinitionsNames()
    ensures PascalCase("c") == "C"
    ensures PascalCase("rootProp") == "RootProp"
    ensures PascalCase("def1") == "Def1"
    ensures PascalCase("prop1") == "Prop1"
    ensures PascalCase("def2") == "Def2"
    ensures PascalCase("prop2") == "Prop2"
  {
  }

  /** The "Definitions" test: every object definition gets a class, referenced or not. */
  lemma UnreferencedDefinitionsExample()
    ensures Generate(DefinitionsSchema(), "c", map[])
      == Success(DataModel(ClassDef("C", [PropertyDef("RootProp", Bool)]), [
        DefinedClass("def1", ClassDef("Def1", [PropertyDef("Prop1", Str)])),
        DefinedClass("def2", ClassDef("Def2", [PropertyDef("Prop2", Int)]))]))
  {
    var root := DefinitionsSchema();
    var defs := root.definitions;
    DefinitionsNames();
    BuildClassFrom(root, map[], "C", root, [PropertyDef("RootProp", Bool)]);
    BuildClassFrom(root, map[], "Def1", defs[0].schema, [PropertyDef("Prop1", Str)]);
    BuildClassFrom(root, map[], "Def2", defs[1].schema, [PropertyDef("Prop2", Int)]);
    assert defs[1..][1..] == [];
    DefineClassesStep(root, map[], defs[1..], ClassDef("Def2", [PropertyDef("Prop2", Int)]), []);
    var def1 := DefinedClass("def1", ClassDef("Def1", [PropertyDef("Prop1", Str)]));
    var def2 := DefinedClass("def2", ClassDef("Def2", [PropertyDef("Prop2", Int)]));
    assert [def2] + [] == [def2];
    assert [def1] + [def2] == [def1, def2];
    DefineClassesStep(root, map[], defs, ClassDef("Def1", [PropertyDef("Prop1", Str)]),
      [DefinedClass("def2", ClassDef("Def2", [PropertyDef("Prop2", Int)]))]);
  }

  function StringFormatsSchema(): Schema {
    ObjectSchema([
      Property("startTime", StringWithFormat("date-time")),
      Property("targetFile", StringWithFormat("uri")),
      Property("version", EnumOf([StringLiteral("v1.0"), StringLiteral("v2.0")]))], [])
  }

  lemma StringFormatsNames()
    ensures PascalCase("c") == "C"
    ensures PascalCase("startTime") == "StartTime"
    ensures PascalCase("targetFile") == "TargetFile"
    ensures PascalCase("version") == "Version"
  {
  }

  /** String formats "date-time" and "uri", and an enum of strings without a "type". */
  lemma StringFormatsExample()
    ensures Generate(StringFormatsSchema(), "c", map[])
      == Success(DataModel(ClassDef("C", [
        PropertyDef("StartTime", DateTime),
        PropertyDef("TargetFile", Uri),
        PropertyDef("Version", Str)]), []))
  {
    var root := StringFormatsSchema();
    StringFormatsNames();
    assert AllStrings([StringLiteral("v1.0"), StringLiteral("v2.0")]);
    BuildClassFrom(root, map[], "C", root, [
      PropertyDef("StartTime", DateTime),
      PropertyDef("TargetFile", Uri),
      PropertyDef("Version", Str)]);
  }

  /** The schema of the test "integer property from dictionary reference". */
  function IntByRefSchema(): Schema {
    ObjectSchema([Property("intDefProp", Ref("#/definitions/d"))], [Property("d", OfType(IntegerType))])
  }

  /** A "$ref" to an integer definition is an int. */
  lemma IntegerByReferenceExample()
    ensures Infer(IntByRefSchema(), Ref("#/definitions/d"), {}) == Success(Int)
    ensures Infer(IntByRefSchema(), ArrayOf(Ref("#/definitions/d")), {}) == Success(ListOf(Int))
  {
    var root := IntByRefSchema();
    assert DefinitionsPointer + "d" == "#/definitions/d";
    assert Lookup(root.definitions, "d") == Some(OfType(IntegerType));
    RefToValueDefinitionIsTransparent(root, "d", OfType(IntegerType));
  }

  /** The schemas of the "array of arrays" tests: the inner array is the definition "itemType". */
  function ArrayOfArraysSchema(name: string, inner: Schema, others: seq<Property>): Schema {
    ObjectSchema([Property(name, ArrayOf(Ref("#/definitions/itemType")))],
      [Property("itemType", ArrayOf(inner))] + others)
  }

  lemma ItemTypeResolves(name: string, inner: Schema, others: seq<Property>)
    ensures Lookup(ArrayOfArraysSchema(name, inner, others).definitions, "itemType") == Some(ArrayOf(inner))
    ensures DefinitionsPointer + "itemType" == "#/definitions/itemType"
  {
  }

  /** An array of arrays of int. */
  lemma ArrayOfArraysOfIntExample()
    ensures Infer(ArrayOfArraysSchema("arrayOfArrayOfInt", OfType(IntegerType), []),
      ArrayOf(Ref("#/definitions/itemType")), {}) == Success(ListOf(ListOf(Int)))
  {
    ItemTypeResolves("arrayOfArrayOfInt", OfType(IntegerType), []);
    RefToValueDefinitionIsTransparent(ArrayOfArraysSchema("arrayOfArrayOfInt", OfType(IntegerType), []),
      "itemType", ArrayOf(OfType(IntegerType)));
  }

  /** An array of arrays of inline objects. */
  lemma ArrayOfArraysOfObjectExample()
    ensures Infer(ArrayOfArraysSchema("arrayOfArrayOfObject", OfType(ObjectType), []),
      ArrayOf(Ref("#/definitions/itemType")), {}) == Success(ListOf(ListOf(Obj)))
  {
    ItemTypeResolves("arrayOfArrayOfObject", OfType(ObjectType), []);
    RefToValueDefinitionIsTransparent(ArrayOfArraysSchema("arrayOfArrayOfObject", OfType(ObjectType), []),
      "itemType", ArrayOf(OfType(ObjectType)));
  }

  function ArrayOfArraysOfClassSchema(): Schema {
    ArrayOfArraysSchema("arrayOfArrayOfD", Ref("#/definitions/d"), [Property("d", OfType(ObjectType))])
  }

  lemma InnerClassResolves()
    ensures Lookup(ArrayOfArraysOfClassSchema().definitions, "d") == Some(OfType(ObjectType))
    ensures DefinitionsPointer + "d" == "#/definitions/d"
  {
  }

  /** An array of arrays of a class: the inner array's items refer to the object definition "d". */
  lemma ArrayOfArraysOfClassExample()
    ensures Infer(ArrayOfArraysOfClassSchema(), ArrayOf(Ref("#/definitions/itemType")), {})
      == Success(ListOf(ListOf(ClassRef("d"))))
  {
    var root := ArrayOfArraysOfClassSchema();
    ItemTypeResolves("arrayOfArrayOfD", Ref("#/definitions/d"), [Property("d", OfType(ObjectType))]);
    InnerClassResolves();
    RefToObjectDefinitionIsClass(root, "d", OfType(ObjectType));
    RefToValueDefinitionIsTransparent(root, "itemType", ArrayOf(Ref("#/definitions/d")));
  }

  /** The property type of that test is spelled `IList<IList<D>>`. */
  lemma ArrayOfArraysOfClassSpelling()
    ensures TypeName(ListOf(ListOf(ClassRef("d")))) == "IList<IList<D>>"
  {
    assert PascalCase("d") == "D";
  }

  function CloningSchema(): Schema {
    ObjectSchema([
      Property("intProp", OfType(IntegerType)),
      Property("stringProp", OfType(StringType)),
      Property("arrayProp", ArrayOf(OfType(NumberType))),
      Property("uriProp", StringWithFormat("uri")),
      Property("dateTimeProp", StringWithFormat("date-time")),
      Property("referencedTypeProp", Ref("#/definitions/d")),
      Property("arrayOfRefProp", ArrayOf(Ref("#/definitions/d"))),
      Property("arrayOfArrayProp", ArrayOf(ArrayOf(Ref("#/definitions/d")))),
      Property("dictionaryProp", OfType(ObjectType))],
      [Property("d", OfType(ObjectType))])
  }

  function CloningHints(): HintDictionary {
    map["C.DictionaryProp" := [DictionaryHint]]
  }

  lemma CloningNames()
    ensures PascalCase("c") == "C"
    ensures PascalCase("d") == "D"
    ensures PascalCase("intProp") == "IntProp"
    ensures PascalCase("stringProp") == "StringProp"
    ensures PascalCase("arrayProp") == "ArrayProp"
    ensures PascalCase("uriProp") == "UriProp"
    ensures PascalCase("dateTimeProp") == "DateTimeProp"
    ensures PascalCase("referencedTypeProp") == "ReferencedTypeProp"
    ensures PascalCase("arrayOfRefProp") == "ArrayOfRefProp"
    ensures PascalCase("arrayOfArrayProp") == "ArrayOfArrayProp"
    ensures PascalCase("dictionaryProp") == "DictionaryProp"
  {
  }

  function CloningModel(): DataModel {
    DataModel(ClassDef("C", [
      PropertyDef("IntProp", Int),
      PropertyDef("StringProp", Str),
      PropertyDef("ArrayProp", ListOf(Dbl)),
      PropertyDef("UriProp", Uri),
      PropertyDef("DateTimeProp", DateTime),
      PropertyDef("ReferencedTypeProp", ClassRef("d")),
      PropertyDef("ArrayOfRefProp", ListOf(ClassRef("d"))),
      PropertyDef("ArrayOfArrayProp", ListOf(ListOf(ClassRef("d")))),
      PropertyDef("DictionaryProp", Dict)]),
      [DefinedClass("d", ClassDef("D", []))])
  }

  /** The members of the kind enum of the cloning test: None, C and D. */
  lemma CloningKindEnumExample()
    ensures KindEnumMembers(CloningModel()) == ["None", "C", "D"]
  {
    var r := KindEnumMembers(CloningModel());
    assert r[2] == "D";
  }

  lemma CloningValueShapes()
    ensures forall i | 0 <= i < 5 ::
      InferProperty(CloningSchema(), CloningHints(), "C", CloningSchema().properties[i])
        == Success(CloningModel().rootClass.properties[i].shape)
  {
  }

  lemma CloningClassShapes()
    ensures forall i | 5 <= i < 8 ::
      InferProperty(CloningSchema(), CloningHints(), "C", CloningSchema().properties[i])
        == Success(CloningModel().rootClass.properties[i].shape)
  {
    var root := CloningSchema();
    assert DefinitionsPointer + "d" == "#/definitions/d";
    assert Lookup(root.definitions, "d") == Some(OfType(ObjectType));
    RefToObjectDefinitionIsClass(root, "d", OfType(ObjectType));
  }

  /** The hint applies to the inline object "dictionaryProp" of class C. */
  lemma CloningDictionaryShape()
    ensures InferProperty(CloningSchema(), CloningHints(), "C", CloningSchema().properties[8]) == Success(Dict)
  {
    var hints := CloningHints();
    var p := CloningSchema().properties[8];
    assert p == Property("dictionaryProp", OfType(ObjectType));
    CloningNames();
    assert PascalCase(p.name) == "DictionaryProp";
    assert HintKey("C", "DictionaryProp") == "C.DictionaryProp";
    assert HasDictionaryHint(hints, "C", PascalCase(p.name));
  }

  lemma CloningRootClass()
    ensures BuildClass(CloningSchema(), CloningHints(), "C", CloningSchema()) == Success(CloningModel().rootClass)
  {
    CloningNames();
    CloningValueShapes();
    CloningClassShapes();
    CloningDictionaryShape();
    BuildClassFrom(CloningSchema(), CloningHints(), "C", CloningSchema(), CloningModel().rootClass.properties);
  }

  lemma CloningDefinedClasses()
    ensures DefineClasses(CloningSchema(), CloningHints(), CloningSchema().definitions) == Success(CloningModel().definedClasses)
  {
    var root := CloningSchema();
    CloningNames();
    BuildClassFrom(root, CloningHints(), "D", OfType(ObjectType), []);
    assert root.definitions[1..] == [];
    DefineClassesStep(root, CloningHints(), root.definitions, ClassDef("D", []), []);
    assert [DefinedClass("d", ClassDef("D", []))] + [] == [DefinedClass("d", ClassDef("D", []))];
  }

  /**
   * The cloning test: the hint "C.DictionaryProp" turns an inline object into a
   * dictionary; the classes are C and D.
   */
  lemma CloningExample()
    ensures Generate(CloningSchema(), "c", CloningHints()) == Success(CloningModel())
  {
    CloningNames();
    CloningRootClass();
    CloningDefinedClasses();
  }

  /** An inline "enum" of strings with no "type" is a string property. */
  lemma InlineStringEnumExample()
    ensures Infer(ObjectSchema([], []), EnumOf([StringLiteral("v1.0"), StringLiteral("v2.0")]), {}) == Success(Str)
    ensures TypeName(Str) == "string"
  {
  }

  /** An array with no "items" is a list of objects. */
  lemma ArrayWithoutItemsExample()
    ensures Infer(ObjectSchema([], []), OfType(ArrayType), {}) == Success(ListOf(Obj))
    ensures TypeName(ListOf(Obj)) == "IList<object>"
  {
  }
}
