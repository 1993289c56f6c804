# jschema data model generator, error numbers and result factory, in Dafny

The project models three parts of jschema.

**Data model generator.** The generator turns a JSON schema into C# classes. The unit
tests of `DataModelGenerator` are the most precise statement of its behaviour, so the
model follows them.
- A root schema whose `"type"` is not `"object"` is refused, and the message names the type.
- Each property becomes a C# property. Its name is the Pascal-cased JSON name. Its type is
  inferred from `"type"`, `"format"` (`uri`, `date-time`), `"items"`, `"enum"` and `"$ref"`.
- A `"$ref"` must be a fragment that starts with `#/definitions/` and names an existing
  definition. Otherwise generation fails with a message that quotes the culprit.
- A reference to an object definition is that definition's class. A reference to any
  other definition is replaced by the definition's own type.
- A `DictionaryHint` keyed `"Class.Property"` makes an inline object property a
  `Dictionary<string, string>`.
- Each object definition becomes a class of its own, whether or not anything references it. The classes follow the order of `"definitions"`, and the first one that cannot be built makes generation fail.
- With cloning code, the kind enumeration lists `None`, the root class and the defined classes.

**Generated members.** The model also covers what the generated members compute:
- `GetHashCode`: the 32-bit `unchecked` accumulator seeded with 17 and multiplied by 31,
  which skips null reference-type properties and walks nested lists;
- `Equals`: the member-by-member comparison with early `return false`;
- the copy constructor, `DeepClone` and `Init`: these deep-copy lists and referenced
  classes, and copy nothing for a null argument.

Instances are modelled as values (`Value`) shaped by the inferred `TypeShape` of each property.

**Error numbers and results.**
- `ErrorNumber`: the enumeration of validation errors, with its fixed integer values.
- `ResultFactory`: the rule id `"JS"` + the value as four decimal digits, and the
  construction of a validation result through `CreateResult`. The result carries one
  location, the message arguments (the JSON path first) and a `jsonPath` property.

Files:
- `wrappers.dfy`: the `Option` and `Result` types.
- `json_schema.dfy`: the parsed schema tree.
- `data_model_generator.dfy`: reference resolution, type inference, hints, class building,
  `Generate` and the kind enumeration.
- `generator_examples.dfy`: the schemas of the unit tests and the models generated for them.
- `generated_members.dfy`: the 32-bit hash, equality and copying of generated instances.
  It has specification functions, the imperative methods proved against them, and the
  `GeneratedObject` class.
- `error_numbers.dfy`: `ErrorNumber`.
- `result_factory.dfy`: rule ids, message arguments, the `Result` class and `CreateResult`.

## Model

| member | source | states |
|---|---|---|
| DataModelGenerator.GenerateFailureQuotesInput | src/Json.Schema.ToDotNet.UnitTests/DataModelGeneratorTests.cs:246-315 | the message of a failed generation contains its culprit; for a non-object root the culprit is the root's type, and otherwise it is text from a `$ref` written in the schema or its definitions |
| JsonSchema.TypeKeyword | src/Json.Schema.ToDotNet.UnitTests/DataModelGeneratorTests.cs:69-79 | the word naming a root's "type" is "none" exactly when the root has no type |
| JsonSchema.TypeKeywordsAreDistinct | src/Json.Schema.ToDotNet.UnitTests/DataModelGeneratorTests.cs:69-79 | distinct "type" values are named by distinct words, so the message names the actual type |
| DataModelGenerator.PascalCase | src/Json.Schema.ToDotNet.UnitTests/DataModelGeneratorTests.cs:516-519 | a name keeps its length and every character after the first; a lower-case ASCII first letter becomes the matching upper-case letter, any other first character stays |
| DataModelGenerator.TypeName | src/Json.Schema.ToDotNet.UnitTests/DataModelGeneratorTests.cs:661-697 | a list is spelled `IList<` + the spelling of its element + `>` |
| DataModelGenerator.OnlyListsSpellIList | src/Json.Schema.ToDotNet.UnitTests/DataModelGeneratorTests.cs:661-697 | among shapes other than a class, a spelling starts with `IList<` exactly when the shape is a list |
| DataModelGenerator.TypeNameDeterminesShape | src/Json.Schema.ToDotNet.UnitTests/DataModelGeneratorTests.cs:661-697 | two shapes that mention no class and have the same C# spelling are the same shape |
| DataModelGenerator.Resolve | src/Json.Schema.ToDotNet.UnitTests/DataModelGeneratorTests.cs:246-315 | a resolved reference is `#/definitions/` followed by a defined name; a non-fragment reference fails as unsupported, a fragment outside `#/definitions/` fails as malformed, and every failure quotes part of the reference |
| DataModelGenerator.ResolveDefinitionPointer | src/Json.Schema.ToDotNet.UnitTests/DataModelGeneratorTests.cs:292-315 | `#/definitions/name` resolves to `name` exactly when the root defines `name`, and fails as undefined otherwise |
| DataModelGenerator.Infer | src/Json.Schema.ToDotNet.UnitTests/DataModelGeneratorTests.cs:1588-1715 | every class an inferred type mentions, also inside lists, is the class of an object definition of the root |
| DataModelGenerator.InferIgnoresVisiting | src/Json.Schema.ToDotNet.UnitTests/DataModelGeneratorTests.cs:1244-1339 | a successful inference does not depend on the set of definitions already being substituted |
| DataModelGenerator.RefToValueDefinitionIsTransparent | src/Json.Schema.ToDotNet.UnitTests/DataModelGeneratorTests.cs:1210-1242 | a reference to a non-object definition has the type of the definition itself |
| DataModelGenerator.RefToObjectDefinitionIsClass | src/Json.Schema.ToDotNet.UnitTests/DataModelGeneratorTests.cs:425-532 | a reference to an object definition is that definition's class, named by its Pascal-cased key |
| DataModelGenerator.SelfSubstitutionIsReported | src/Json.Schema.ToDotNet.UnitTests/DataModelGeneratorTests.cs:1210-1242 | a definition that is only a reference to itself is reported as a circular reference instead of looping |
| DataModelGenerator.InferFailureQuotesReference | src/Json.Schema.ToDotNet.UnitTests/DataModelGeneratorTests.cs:246-315 | when a type cannot be inferred, the error is never the root-type error, and its culprit is text from a `$ref` written in the node or in a definition that its references led to |
| DataModelGenerator.HintKeyIdentifiesProperty | src/Json.Schema.ToDotNet.UnitTests/DataModelGeneratorTests.cs:630-636 | for class names without a dot, the key `Class.Property` names exactly one class and property, and a table holding one dictionary hint applies it to exactly that property |
| DataModelGenerator.InferProperty | src/Json.Schema.ToDotNet.UnitTests/DataModelGeneratorTests.cs:630-696 | an inline object property with a dictionary hint on `Class.Property` is a dictionary; inferred property types mention only object definitions; a failure is the failure of inferring the property's schema |
| DataModelGenerator.BuildProperties | src/Json.Schema.ToDotNet.UnitTests/DataModelGeneratorTests.cs:112-131 | the property list succeeds exactly when every property's type is inferred, and then holds, in order, each property's Pascal-cased name and inferred type; otherwise it fails with the error of the first property whose type cannot be inferred |
| DataModelGenerator.BuildClass | src/Json.Schema.ToDotNet.UnitTests/DataModelGeneratorTests.cs:112-131 | a class succeeds exactly when every property's type is inferred; it carries the class name and one property per schema property, in document order; a failure is that of the first property whose type cannot be inferred |
| DataModelGenerator.ClassFailureQuotesReference | src/Json.Schema.ToDotNet.UnitTests/DataModelGeneratorTests.cs:246-315 | a class that cannot be built fails with an error whose culprit is text from a `$ref` of its node or of a definition, never with the root-type error |
| DataModelGenerator.DefineClassesCoversObjectDefinitions | src/Json.Schema.ToDotNet.UnitTests/DataModelGeneratorTests.cs:927-1081 | exactly the object definitions get classes, referenced or not |
| DataModelGenerator.DefineClasses | src/Json.Schema.ToDotNet.UnitTests/DataModelGeneratorTests.cs:927-1081 | each generated class of a definition is named after the definition, Pascal-cased |
| DataModelGenerator.DefineClassesInDocumentOrder | src/Json.Schema.ToDotNet.UnitTests/DataModelGeneratorTests.cs:927-1081 | the defined classes are the object definitions in document order: the i-th class belongs to the i-th object definition and is the class built from it under its Pascal-cased key |
| DataModelGenerator.DefineClassesSucceeds | src/Json.Schema.ToDotNet.UnitTests/DataModelGeneratorTests.cs:927-1081 | the classes of the definitions are generated exactly when the class of every object definition can be built |
| DataModelGenerator.DefineClassesFailsAtFirstBadDefinition | src/Json.Schema.ToDotNet.UnitTests/DataModelGeneratorTests.cs:927-1081 | a failure is the error of the first object definition, in document order, whose class cannot be built; all object definitions before it build |
| DataModelGenerator.DefinitionFailureQuotesReference | src/Json.Schema.ToDotNet.UnitTests/DataModelGeneratorTests.cs:246-315 | when the classes of the definitions fail, the culprit is text from a `$ref` written in a definition |
| DataModelGenerator.DefineClassesAreDistinct | src/Json.Schema.ToDotNet.UnitTests/DataModelGeneratorTests.cs:927-1081 | no definition gets two classes when definition names are unique |
| DataModelGenerator.ResolvedRefsAreDefined | src/Json.Schema.ToDotNet.UnitTests/DataModelGeneratorTests.cs:425-532 | a class whose property types were inferred mentions only classes of object definitions |
| DataModelGenerator.Generate | src/Json.Schema.ToDotNet.UnitTests/DataModelGeneratorTests.cs:69-79 | a root that is not an object fails, naming its type; an object root succeeds exactly when its own class and the class of every object definition can be built, and a failure then quotes a `$ref` of the schema; on success the root class is built from the root, the defined classes are those of the object definitions in document order, one per definition when names are unique, and every class mentioned is generated |
| DataModelGenerator.KindEnumMembers | src/Json.Schema.ToDotNet.UnitTests/DataModelGeneratorTests.cs:885-900 | the kind enumeration is `None`, the root class, then each defined class in order |
| GeneratorExamples.BuiltInTypesExample | src/Json.Schema.ToDotNet.UnitTests/DataModelGeneratorTests.cs:112-131 | string, number, boolean and integer properties give `string`, `double`, `bool` and `int` properties named `StringProp` … `IntegerProp` |
| GeneratorExamples.RootOfTypeNumberExample | src/Json.Schema.ToDotNet.UnitTests/DataModelGeneratorTests.cs:69-79 | a root of type number is refused and the message contains "number" |
| GeneratorExamples.NonFragmentReferenceExample | src/Json.Schema.ToDotNet.UnitTests/DataModelGeneratorTests.cs:246-265 | a reference to another document fails quoting that reference |
| GeneratorExamples.NonFragmentReferenceMessage | src/Json.Schema.ToDotNet.UnitTests/DataModelGeneratorTests.cs:246-265 | the message of that failure contains `https://example.com/pschema.schema.json/#` |
| GeneratorExamples.NonDefinitionPointerExample | src/Json.Schema.ToDotNet.UnitTests/DataModelGeneratorTests.cs:267-290 | `#/notDefinitions/p` fails quoting the pointer |
| GeneratorExamples.NonDefinitionPointerMessage | src/Json.Schema.ToDotNet.UnitTests/DataModelGeneratorTests.cs:267-290 | the message of that failure contains `#/notDefinitions/p` |
| GeneratorExamples.UndefinedDefinitionExample | src/Json.Schema.ToDotNet.UnitTests/DataModelGeneratorTests.cs:292-315 | a reference to a missing definition, next to an empty definition `p`, fails naming `nonExistentDefinition` |
| GeneratorExamples.UndefinedDefinitionMessage | src/Json.Schema.ToDotNet.UnitTests/DataModelGeneratorTests.cs:292-315 | the message of that failure contains `nonExistentDefinition` |
| GeneratorExamples.ColorClass | src/Json.Schema.ToDotNet.UnitTests/DataModelGeneratorTests.cs:445-465 | the `color` definition gives class `Color` with integer properties `Red`, `Green`, `Blue` |
| GeneratorExamples.ConsoleWindowClass | src/Json.Schema.ToDotNet.UnitTests/DataModelGeneratorTests.cs:431-444 | both colour properties of the root have type `Color` |
| GeneratorExamples.ConsoleWindowExample | src/Json.Schema.ToDotNet.UnitTests/DataModelGeneratorTests.cs:425-532 | the console window schema generates the root class and the `Color` class, and nothing else |
| GeneratorExamples.UnreferencedDefinitionsExample | src/Json.Schema.ToDotNet.UnitTests/DataModelGeneratorTests.cs:927-1081 | definitions `def1` and `def2`, referenced by nothing, still get classes `Def1` and `Def2` |
| GeneratorExamples.StringFormatsExample | src/Json.Schema.ToDotNet.UnitTests/DataModelGeneratorTests.cs:1083-1208 | `date-time` and `uri` string formats give `DateTime` and `Uri`; other strings stay `string` |
| GeneratorExamples.IntegerByReferenceExample | src/Json.Schema.ToDotNet.UnitTests/DataModelGeneratorTests.cs:1210-1339 | a reference to an integer definition is `int`, and an array of such references is a list of `int` |
| GeneratorExamples.ArrayOfArraysOfIntExample | src/Json.Schema.ToDotNet.UnitTests/DataModelGeneratorTests.cs:1341-1461 | an array of references to an array-of-integer definition is a list of lists of `int` |
| GeneratorExamples.ArrayOfArraysOfObjectExample | src/Json.Schema.ToDotNet.UnitTests/DataModelGeneratorTests.cs:1463-1586 | the same with inline objects is a list of lists of `object` |
| GeneratorExamples.ArrayOfArraysOfClassExample | src/Json.Schema.ToDotNet.UnitTests/DataModelGeneratorTests.cs:1588-1715 | the same with references to an object definition is a list of lists of the class of `d` |
| GeneratorExamples.ArrayOfArraysOfClassSpelling | src/Json.Schema.ToDotNet.UnitTests/DataModelGeneratorTests.cs:1627 | the property type of that test is spelled `IList<IList<D>>` |
| GeneratorExamples.CloningValueShapes | src/Json.Schema.ToDotNet.UnitTests/DataModelGeneratorTests.cs:658-681 | the first five properties of the cloning schema are `int`, `string`, list of `double`, `Uri` and `DateTime` |
| GeneratorExamples.CloningClassShapes | src/Json.Schema.ToDotNet.UnitTests/DataModelGeneratorTests.cs:682-691 | the next three are `D`, list of `D` and list of lists of `D` |
| GeneratorExamples.CloningDictionaryShape | src/Json.Schema.ToDotNet.UnitTests/DataModelGeneratorTests.cs:630-696 | the hinted `dictionaryProp` is `Dictionary<string, string>` |
| GeneratorExamples.CloningRootClass | src/Json.Schema.ToDotNet.UnitTests/DataModelGeneratorTests.cs:650-696 | the root class of the cloning schema has the nine properties in order |
| GeneratorExamples.CloningDefinedClasses | src/Json.Schema.ToDotNet.UnitTests/DataModelGeneratorTests.cs:623-627 | the one definition `d` gives the empty class `D` |
| GeneratorExamples.CloningExample | src/Json.Schema.ToDotNet.UnitTests/DataModelGeneratorTests.cs:566-925 | the cloning schema with its hints generates exactly classes `C` and `D` |
| GeneratorExamples.CloningKindEnumExample | src/Json.Schema.ToDotNet.UnitTests/DataModelGeneratorTests.cs:885-900 | its kind enumeration is `None`, `C`, `D` |
| GeneratorExamples.InlineStringEnumExample | src/Json.Schema.ToDotNet.UnitTests/DataModelGeneratorTests.cs:1717-1747 | an inline enum of strings without a type is a `string` property |
| GeneratorExamples.ArrayWithoutItemsExample | src/Json.Schema.ToDotNet.UnitTests/DataModelGeneratorTests.cs:317-334 | an array without `items` is `IList<object>` |
| GeneratedMembers.Wrap | src/Json.Schema.ToDotNet.UnitTests/DataModelGeneratorTests.cs:138-154 | `unchecked` arithmetic: the 32-bit two's-complement value congruent to its argument |
| GeneratedMembers.WrapIsIdentityOnInt32 | src/Json.Schema.ToDotNet.UnitTests/DataModelGeneratorTests.cs:138-154 | wrapping leaves a 32-bit value alone |
| GeneratedMembers.WrapModulo | src/Json.Schema.ToDotNet.UnitTests/DataModelGeneratorTests.cs:138-154 | wrapping depends only on the value modulo 2^32 |
| GeneratedMembers.MixIsModular | src/Json.Schema.ToDotNet.UnitTests/DataModelGeneratorTests.cs:138-154 | the step `result * 31 + h`, wrapped at each step, equals the wrapped exact value, so overflow can be postponed to the end |
| GeneratedMembers.GeneratedModelEnv | src/Json.Schema.ToDotNet.UnitTests/DataModelGeneratorTests.cs:778-857 | for a generated model with unique definition names, the class table has exactly the object definitions as keys, gives each defined class its own property types, and knows every class that a property of the root class or of a defined class mentions |
| GeneratedMembers.PropertyHash | src/Json.Schema.ToDotNet.UnitTests/DataModelGeneratorTests.cs:138-154 | a null property of a reference type, or a null list, leaves the accumulator unchanged |
| GeneratedMembers.ClassHash | src/Json.Schema.ToDotNet.UnitTests/DataModelGeneratorTests.cs:138-154 | an instance with no properties hashes to the seed 17 |
| GeneratedMembers.ClassHashFolds | src/Json.Schema.ToDotNet.UnitTests/DataModelGeneratorTests.cs:138-154 | the hash of a class folds its properties in declaration order: the last property's statements run on the hash of the properties before it |
| GeneratedMembers.FieldsHashPrefix | src/Json.Schema.ToDotNet.UnitTests/DataModelGeneratorTests.cs:138-154 | the hash of the first n properties depends only on those properties |
| GeneratedMembers.BuiltInPropertiesHashExample | src/Json.Schema.ToDotNet.UnitTests/DataModelGeneratorTests.cs:138-154 | the hash of the built-in-types class is 17 folded with each property's hash, skipping a null string |
| GeneratedMembers.ValueTypesHashClosedForm | src/Json.Schema.ToDotNet.UnitTests/DataModelGeneratorTests.cs:1113-1122 | value-type properties (double, bool, int, DateTime) are always folded in, never skipped |
| GeneratedMembers.ArrayPropertyHashExample | src/Json.Schema.ToDotNet.UnitTests/DataModelGeneratorTests.cs:339-359 | a list's elements are folded in after the list shifts the accumulator per element, and a null element only shifts it |
| GeneratedMembers.NullAndEmptyListHashAlike | src/Json.Schema.ToDotNet.UnitTests/DataModelGeneratorTests.cs:339-359 | a null list and an empty list leave the hash unchanged |
| GeneratedMembers.NullElementStillShifts | src/Json.Schema.ToDotNet.UnitTests/DataModelGeneratorTests.cs:1384-1402 | a null element of a reference type multiplies the accumulator by 31 and adds nothing |
| GeneratedMembers.ItemsHashPrefix | src/Json.Schema.ToDotNet.UnitTests/DataModelGeneratorTests.cs:1384-1402 | the hash of the first n elements depends only on those elements |
| GeneratedMembers.ItemsHashAppend | src/Json.Schema.ToDotNet.UnitTests/DataModelGeneratorTests.cs:1384-1402 | hashing a concatenation continues from the hash of the first part |
| GeneratedMembers.HashValue | src/Json.Schema.ToDotNet.UnitTests/DataModelGeneratorTests.cs:1384-1402 | the loop with nested `foreach` computes exactly the specified property hash |
| GeneratedMembers.HashFields | src/Json.Schema.ToDotNet.UnitTests/DataModelGeneratorTests.cs:138-154 | the loop over all fields computes exactly the specified class hash |
| GeneratedMembers.PropertyEquals | src/Json.Schema.ToDotNet.UnitTests/DataModelGeneratorTests.cs:361-390 | when either side is null, the comparison holds exactly when both are null |
| GeneratedMembers.PropertyEqualsIsEquality | src/Json.Schema.ToDotNet.UnitTests/DataModelGeneratorTests.cs:361-390 | the generated comparison of a property holds exactly when the two values are equal |
| GeneratedMembers.ItemsEqualIsPrefixEquality | src/Json.Schema.ToDotNet.UnitTests/DataModelGeneratorTests.cs:1415-1453 | the element-by-element loop up to n holds exactly when the first n elements agree |
| GeneratedMembers.FieldsEqualIsPrefixEquality | src/Json.Schema.ToDotNet.UnitTests/DataModelGeneratorTests.cs:156-184 | the field-by-field comparison up to n holds exactly when the first n fields agree |
| GeneratedMembers.ClassEquals | src/Json.Schema.ToDotNet.UnitTests/DataModelGeneratorTests.cs:156-184 | `Equals` on two instances of a class holds exactly when all their property values are equal |
| GeneratedMembers.EqualInstancesHashAlike | src/Json.Schema.ToDotNet.UnitTests/DataModelGeneratorTests.cs:138-184 | instances that `Equals` accepts have the same hash code |
| GeneratedMembers.ListEqualityRule | src/Json.Schema.ToDotNet.UnitTests/DataModelGeneratorTests.cs:361-390 | two list properties are equal when both are null, or both are non-null with the same count and pairwise equal elements |
| GeneratedMembers.ItemsEqualAll | src/Json.Schema.ToDotNet.UnitTests/DataModelGeneratorTests.cs:1415-1453 | the element loop up to n holds exactly when every element before n compares equal |
| GeneratedMembers.NullIsNotTheEmptyList | src/Json.Schema.ToDotNet.UnitTests/DataModelGeneratorTests.cs:339-390 | a null list and an empty list hash alike but are not equal |
| GeneratedMembers.EqualValues | src/Json.Schema.ToDotNet.UnitTests/DataModelGeneratorTests.cs:1415-1453 | the loops with early `return false` compute exactly the specified property equality |
| GeneratedMembers.EqualFields | src/Json.Schema.ToDotNet.UnitTests/DataModelGeneratorTests.cs:156-184 | the field loop computes equal counts and field-by-field equality |
| GeneratedMembers.PropertyCopy | src/Json.Schema.ToDotNet.UnitTests/DataModelGeneratorTests.cs:778-857 | the deep copy of a property value is a value equal to it |
| GeneratedMembers.ItemsCopy | src/Json.Schema.ToDotNet.UnitTests/DataModelGeneratorTests.cs:804-820 | copying the first n elements of a list gives those elements |
| GeneratedMembers.FieldsCopy | src/Json.Schema.ToDotNet.UnitTests/DataModelGeneratorTests.cs:750-758 | copying the first n fields of an instance gives those fields |
| GeneratedMembers.CopyValue | src/Json.Schema.ToDotNet.UnitTests/DataModelGeneratorTests.cs:778-857 | the loops that build `destination_N` lists compute exactly the specified copy |
| GeneratedMembers.CopyFields | src/Json.Schema.ToDotNet.UnitTests/DataModelGeneratorTests.cs:750-758 | copying every field of an instance computes exactly the specified copy |
| GeneratedMembers.CopyIsEqual | src/Json.Schema.ToDotNet.UnitTests/DataModelGeneratorTests.cs:740-775 | a copy compares equal to its original and has the same hash |
| GeneratedMembers.InitValue | src/Json.Schema.ToDotNet.UnitTests/DataModelGeneratorTests.cs:778-857 | `Init` leaves a property as it was when it is a list, `Uri`, class or dictionary and the argument is null, and otherwise sets it to (a copy equal to) the argument |
| GeneratedMembers.GeneratedObject.constructor | src/Json.Schema.ToDotNet.UnitTests/DataModelGeneratorTests.cs:702-704 | a new instance holds the default value of each property |
| GeneratedMembers.GeneratedObject.Init | src/Json.Schema.ToDotNet.UnitTests/DataModelGeneratorTests.cs:778-857 | value-type and string properties are assigned; lists, `Uri`, classes and dictionaries are copied when the argument is non-null and otherwise keep their previous value |
| GeneratedMembers.GeneratedObject.FromValues | src/Json.Schema.ToDotNet.UnitTests/DataModelGeneratorTests.cs:736-739 | the constructor from values is `Init` applied to a new instance |
| GeneratedMembers.GeneratedObject.CopyOf | src/Json.Schema.ToDotNet.UnitTests/DataModelGeneratorTests.cs:750-758 | a null `other` is refused naming `other`; otherwise a fresh instance with equal properties |
| GeneratedMembers.GeneratedObject.DeepClone | src/Json.Schema.ToDotNet.UnitTests/DataModelGeneratorTests.cs:760-775 | the clone is a fresh instance of the same class with equal properties |
| GeneratedMembers.GeneratedObject.GetHashCode | src/Json.Schema.ToDotNet.UnitTests/DataModelGeneratorTests.cs:138-154 | the hash code is the specified class hash of the current properties |
| GeneratedMembers.GeneratedObject.Equals | src/Json.Schema.ToDotNet.UnitTests/DataModelGeneratorTests.cs:133-184 | `Equals` is false for null, and otherwise holds exactly for an instance of the same class whose properties compare equal |
| ErrorNumbers.Code | src/Json.Schema/ErrorNumber.cs:13-373 | every value lies in 0..1019, and only `None` is 0 |
| ErrorNumbers.FromCode | src/Json.Schema/ErrorNumber.cs:13-373 | a value names an error number exactly when the enumeration defines it, and then names the one with that value |
| ErrorNumbers.FromCodeOfCode | src/Json.Schema/ErrorNumber.cs:13-373 | every error number is recovered from its value |
| ErrorNumbers.CodesAreDistinct | src/Json.Schema/ErrorNumber.cs:13-373 | no two error numbers share a value |
| ErrorNumbers.SchemaErrorsBelow1000 | src/Json.Schema/ErrorNumber.cs:20-47 | schema-document errors lie below 1000; they are exactly the errors with values 1 and 2 |
| ErrorNumbers.InstanceErrorsAreContiguous | src/Json.Schema/ErrorNumber.cs:49-373 | instance-document errors are exactly the values 1001 to 1019, each of them used |
| ResultFactory.DigitChar | src/Json.Schema.Validation/ResultFactory.cs:15 | a digit's character is a decimal digit character of that value |
| ResultFactory.DigitValue | src/Json.Schema.Validation/ResultFactory.cs:15 | the value of a digit character is a digit whose character it is |
| ResultFactory.Digits | src/Json.Schema.Validation/ResultFactory.cs:15 | the decimal text of a number is non-empty digits with no leading zero |
| ResultFactory.ParseDigitsOfDigits | src/Json.Schema.Validation/ResultFactory.cs:15 | reading the decimal text of a number gives the number back |
| ResultFactory.PadWithZeros | src/Json.Schema.Validation/ResultFactory.cs:15 | padding gives the original text after leading zeros, to at least the width |
| ResultFactory.FormatD4 | src/Json.Schema.Validation/ResultFactory.cs:15 | the "D4" text has at least four characters and starts with a minus sign for a negative number |
| ResultFactory.FormatD4ReadsBack | src/Json.Schema.Validation/ResultFactory.cs:15 | the "D4" text of any number is its sign, then digits that read back as its magnitude |
| ResultFactory.FormatD4OfSmallNumber | src/Json.Schema.Validation/ResultFactory.cs:15 | the "D4" text of 0..9999 is four digits that read back as the number |
| ResultFactory.FormatD4OfNegativeNumber | src/Json.Schema.Validation/ResultFactory.cs:15 | the "D4" text of a negative number starts with a minus sign |
| ResultFactory.RuleIdFromErrorNumber | src/Json.Schema.Validation/ResultFactory.cs:73-76 | a rule id is six characters: `JS` followed by four digits that read back as the error's value |
| ResultFactory.ParseRuleIdOfRuleId | src/Json.Schema.Validation/ResultFactory.cs:73-76 | reading a rule id gives back its error number |
| ResultFactory.RuleIdsAreDistinct | src/Json.Schema.Validation/ResultFactory.cs:73-76 | distinct error numbers have distinct rule ids |
| ResultFactory.NotAStringRuleId | src/Json.Schema.Validation/ResultFactory.cs:73-76 | `NotAString` has rule id `JS0001` |
| ResultFactory.WrongTypeRuleId | src/Json.Schema.Validation/ResultFactory.cs:73-76 | `WrongType` has rule id `JS1001` |
| ResultFactory.InvalidEnumValueRuleId | src/Json.Schema.Validation/ResultFactory.cs:73-76 | `InvalidEnumValue` has rule id `JS1019` |
| ResultFactory.MessageArguments | src/Json.Schema.Validation/ResultFactory.cs:38-39 | the message arguments are the JSON path, then the text of each argument in order |
| ResultFactory.MessageArgumentsAppend | src/Json.Schema.Validation/ResultFactory.cs:38-39 | adding arguments at the end adds their texts at the end |
| ResultFactory.BuildMessageArguments | src/Json.Schema.Validation/ResultFactory.cs:38-39 | extending the list with `AddRange` one text at a time builds exactly the message arguments |
| ResultFactory.Result.SetProperty | src/Json.Schema.Validation/ResultFactory.cs:68 | setting a property updates that key of the property bag and nothing else |
| ResultFactory.CreateResult | src/Json.Schema.Validation/ResultFactory.cs:29-71 | a fresh result: its rule id and level are those of the error's rule; it has one location whose region starts at the given line and column; its message arguments are the JSON path and then the arguments; it uses the default message id; its only property is `jsonPath` |

## Left out

- File system behaviour: the output-directory check, `ForceOverwrite` and the output file paths. These are I/O through a mock file system.
- The emitted C# text. Namespaces, `using` lines, XML comments, indentation, the `ISyntax` interface text and constructor parameter lists are left out. The model states what the text means, not its layout.
- Parsing of schemas and hint files. The schema and the hint table are given as values.
- Multiple `"type"` values, `additionalProperties`, `required`, and nested classes for inline objects with properties are left out. The generator's unit tests do not exercise them.
- The hash of a single string, double, bool, `DateTime` or `Uri`, and of a dictionary, are left out. They are .NET library behaviour, so they are parameters of the environment (`primHash`, `dictHash`).
- Numbers are modelled as `real`. NaN, where `!=` on doubles is not equality, is left out as floating-point behaviour.
- The `new Uri(...)` rebuilt in `Init` is modelled as a copy of the value. It calls a foreign library constructor.
- GeneratedMembers.PropertyCopy: a copy is modelled as an equal value. The model therefore does not capture aliasing: that a deep copy shares no object with its original, and that `ReferenceEquals` short-circuits equality.
- GeneratedMembers.PropertyEquals: `Uri`, `object` and dictionary values compare as model values. .NET's `Uri` equality (which ignores the fragment, the user info and the case of scheme and host) and an overridden `object.Equals` are not modelled. So `PropertyEqualsIsEquality`, `ClassEquals` and `EqualInstancesHashAlike` hold for equality of the model's values, not for .NET equality of those types.
- GeneratedMembers.GeneratedObject.CopyOf: the `ArgumentNullException` is modelled as a `Failure` naming the parameter.
- Dictionary properties are compared and hashed as values. The tests do not fix the generated comparison and hash of a dictionary, so the model does not either: it uses value equality and the environment's `dictHash`.
- A generated instance that holds a nested class is hashed through that class's own properties. Leaf and dictionary values under the `Obj` shape go through the environment's hash. An instance or a list held under `Obj` contributes 0 (`LeafHash`), whereas C# would call that object's own `GetHashCode`.
- DataModelGenerator.Infer: the model does not fix the generator's behaviour on a `$ref` cycle through non-object definitions. It reports a `CircularReference` failure instead, and the message text of that failure is not modelled.
- DataModelGenerator.Message: the exception texts are not modelled. Only the tests' requirement that each message contains its culprit is modelled; the surrounding words are invented.
- DataModelGenerator.Generate: a root without `"type"` is taken as not an object and reported as `none`. This is an assumption.
- DataModelGenerator.Generate: a failure of the root class is reported before any failure among the definitions. This order is an assumption; the tests do not fix it.
- The settings `GenerateOverrides` and `GenerateCloningCode` are always taken as on, as in the tests that show `GetHashCode`, `Equals` and the copy members. With them off, a class keeps `object`'s reference equality and has no copy members; that variant is not modelled.
- Pascal casing upper-cases only ASCII first letters. Unicode case mapping is left out.
- `RuleFactory.GetRuleFromErrorNumber`, the default level's `ToLevel()` and `RuleFactory.DefaultRuleMessageId` are not part of this model. The rule is an input function of `CreateResult`, with an id and a level. The default message id is a named constant; its text in `RuleFactory` is not modelled.
- The `JToken` overload of `CreateResult` only reads Newtonsoft line information, so it is left out.
- `object.ToString()` on the message arguments is a foreign call. It is the input function `toText`.
- ResultFactory.CreateResult: a null `args` array, or a null argument in it, makes the source throw `NullReferenceException` in `args.Select(a => a.ToString())`. The model's arguments are never null and `toText` is total, so that exception is not modelled.
- The instance-validation engine that reports these error numbers is not part of this model.
