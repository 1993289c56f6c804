/**
 * The front end of the data model generator: resolving "$ref" pointers, inferring the
 * .NET type of every schema property, and deciding which classes are generated.
 */
module DataModelGenerator {
  import opened Wrappers
  import opened JsonSchema

  /**
   * The .NET type of a generated property or list element. `ClassRef` names the
   * definition whose generated class is meant; `Obj` is `object`; `Dict` is
   * `Dictionary<string, string>`.
   */
  datatype TypeShape =
    | Str | Dbl | Bool | Int | Uri | DateTime | Obj
    | ClassRef(definition: string)
    | ListOf(element: TypeShape)
    | Dict

  /** The ways generation fails; every failure aborts the whole generation. */
  datatype GenerationError =
    | RootNotObject(actualType: string)
    | UnsupportedReference(reference: string)
    | MalformedPointer(pointer: string)
    | UndefinedReference(name: string)
    | CircularReference(name: string)

  /** The piece of the input that the message of a failure must quote. */
  function Culprit(e: GenerationError): string {
    match e
    case RootNotObject(t) => t
    case UnsupportedReference(r) => r
    case MalformedPointer(p) => p
    case UndefinedReference(n) => n
    case CircularReference(n) => n
  }

  function MessageLead(e: GenerationError): string {
    match e
    case RootNotObject(_) => "The root schema must be of type 'object', but it is of type '"
    case UnsupportedReference(_) => "The reference '"
    case MalformedPointer(_) => "The reference '"
    case UndefinedReference(_) => "The schema has no definition named '"
    case CircularReference(_) => "The definition '"
  }

  function MessageTail(e: GenerationError): string {
    match e
    case RootNotObject(_) => "'."
    case UnsupportedReference(_) => "' is not a fragment of the current document."
    case MalformedPointer(_) => "' does not point into the 'definitions' property."
    case UndefinedReference(_) => "'."
    case CircularReference(_) => "' refers back to itself."
  }

  /** The text of the exception a failure raises. */
  function Message(e: GenerationError): string {
    MessageLead(e) + Culprit(e) + MessageTail(e)
  }

  predicate Contains(text: string, part: string) {
    exists i | 0 <= i <= |text| :: part <= text[i..]
  }

  lemma ContainsInfix(prefix: string, part: string, suffix: string)
    ensures Contains(prefix + part + suffix, part)
  {
    assert (prefix + part + suffix)[|prefix|..] == part + suffix;
  }

  /** Every failure's message quotes the offending input. */
  lemma MessageQuotesCulprit(e: GenerationError)
    ensures Contains(Message(e), Culprit(e))
  {
    ContainsInfix(MessageLead(e), Culprit(e), MessageTail(e));
  }

  // ---------------------------------------------------------------------------
  // Names

  function Capitalize(c: char): char {
    if 'a' <= c <= 'z' then (c as int - 'a' as int + 'A' as int) as char else c
  }

  /** Property, definition and root names become .NET identifiers by upper-casing the first letter. */
  function PascalCase(s: string): (r: string)
    ensures |r| == |s|
    ensures forall i | 0 < i < |s| :: r[i] == s[i]
    ensures |s| > 0 && 'a' <= s[0] <= 'z' ==> 'A' <= r[0] <= 'Z' && r[0] as int - 'A' as int == s[0] as int - 'a' as int
    ensures |s| > 0 && !('a' <= s[0] <= 'z') ==> r[0] == s[0]
  {
    if |s| == 0 then s else s[0 := Capitalize(s[0])]
  }

  const ListPrefix := "IList<"

  /** The C# spelling of a type shape. */
  function TypeName(t: TypeShape): (r: string)
    ensures t.ListOf? ==>
      && ListPrefix <= r && |r| > |ListPrefix| && r[|r| - 1] == '>'
      && r[|ListPrefix|..|r| - 1] == TypeName(t.element)
  {
    match t
    case Str => "string"
    case Dbl => "double"
    case Bool => "bool"
    case Int => "int"
    case Uri => "Uri"
    case DateTime => "DateTime"
    case Obj => "object"
    case ClassRef(d) => PascalCase(d)
    case ListOf(e) =>
      var r := ListPrefix + TypeName(e) + ">";
      assert r[..|ListPrefix|] == ListPrefix && r[|ListPrefix|..|r| - 1] == TypeName(e);
      r
    case Dict => "Dictionary<string, string>"
  }

  /** Among shapes other than a class, exactly the lists are spelled `IList<…>`. */
  lemma OnlyListsSpellIList(t: TypeShape)
    requires !t.ClassRef?
    ensures t.ListOf? <==> ListPrefix <= TypeName(t)
  {
    if !t.ListOf? {
      assert TypeName(t)[0] != ListPrefix[0];
    }
  }

  /** Shapes that mention no class are told apart by their C# spelling. */
  lemma {:induction false} TypeNameDeterminesShape(a: TypeShape, b: TypeShape)
    requires ClassRefs(a) == [] && ClassRefs(b) == []
    requires TypeName(a) == TypeName(b)
    ensures a == b
  {
    OnlyListsSpellIList(a);
    OnlyListsSpellIList(b);
    if a.ListOf? {
      TypeNameDeterminesShape(a.element, b.element);
    }
  }

  // ---------------------------------------------------------------------------
  // Reference resolution

  const DefinitionsPointer := "#/definitions/"

  /** A reference into the current document starts with '#'. */
  predicate IsFragment(reference: string) {
    |reference| > 0 && reference[0] == '#'
  }

  /**
   * Resolves a "$ref" to the name of a definition of the root schema. A reference to
   * another document, a fragment outside "#/definitions/" and a missing definition fail.
   */
  function Resolve(root: Schema, reference: string): (r: Result<string, GenerationError>)
    ensures r.Success? ==> reference == DefinitionsPointer + r.value && r.value in Names(root.definitions)
    ensures r.Failure? ==> Contains(reference, Culprit(r.error))
    ensures !IsFragment(reference) ==> r == Failure(UnsupportedReference(reference))
    ensures IsFragment(reference) && !(DefinitionsPointer <= reference) ==> r == Failure(MalformedPointer(reference))
  {
    assert reference[0..] == reference;
    if !IsFragment(reference) then
      Failure(UnsupportedReference(reference))
    else if !(DefinitionsPointer <= reference) then
      Failure(MalformedPointer(reference))
    else
      var name := reference[|DefinitionsPointer|..];
      assert reference == DefinitionsPointer + name;
      if name in Names(root.definitions) then Success(name) else Failure(UndefinedReference(name))
  }

  /** A pointer built from a definition name resolves back to that name, if it is defined. */
  lemma ResolveDefinitionPointer(root: Schema, name: string)
    ensures Resolve(root, DefinitionsPointer + name)
      == if name in Names(root.definitions) then Success(name) else Failure(UndefinedReference(name))
  {
    var reference := DefinitionsPointer + name;
    assert DefinitionsPointer <= reference;
    assert reference[|DefinitionsPointer|..] == name;
  }

  lemma ContainsSuffix(prefix: string, part: string)
    ensures Contains(prefix + part, part)
  {
    assert (prefix + part)[|prefix|..] == part;
  }

  // ---------------------------------------------------------------------------
  // The "$ref" texts of a schema

  /** Every "$ref" value written in a schema node, its items and its properties. */
  function RefsOf(s: Schema): set<string>
    decreases s
  {
    (if s.reference.Some? then {s.reference.value} else {})
    + (if s.items.Some? then RefsOf(s.items.value) else {})
    + (set i, ref | 0 <= i < |s.properties| && ref in RefsOf(s.properties[i].schema) :: ref)
  }

  /** Every "$ref" value written in a list of definitions. */
  function DefinitionRefs(defs: seq<Property>): set<string> {
    set i, ref | 0 <= i < |defs| && ref in RefsOf(defs[i].schema) :: ref
  }

  /** Every "$ref" value written in a root schema, its properties and its definitions. */
  function SchemaRefs(root: Schema): set<string> {
    RefsOf(root) + DefinitionRefs(root.definitions)
  }

  /** The culprit of `e` is text taken from one of `refs`. */
  predicate QuotesReference(refs: set<string>, e: GenerationError) {
    exists ref | ref in refs :: Contains(ref, Culprit(e))
  }

  lemma QuotesReferenceMono(refs: set<string>, more: set<string>, e: GenerationError)
    requires refs <= more && QuotesReference(refs, e)
    ensures QuotesReference(more, e)
  {
    var ref :| ref in refs && Contains(ref, Culprit(e));
    assert ref in more;
  }

  lemma PropertyRefsIncluded(s: Schema, i: nat)
    requires i < |s.properties|
    ensures RefsOf(s.properties[i].schema) <= RefsOf(s)
  {
  }

  lemma DefinitionRefsIncluded(defs: seq<Property>, i: nat)
    requires i < |defs|
    ensures RefsOf(defs[i].schema) <= DefinitionRefs(defs)
  {
  }

  // ---------------------------------------------------------------------------
  // Type inference

  /** A definition that gets a generated class of its own. */
  predicate IsObjectDefinition(s: Schema) {
    s.reference.None? && s.jsonType == Some(ObjectType)
  }

  predicate AllStrings(literals: seq<Literal>) {
    forall i | 0 <= i < |literals| :: literals[i].StringLiteral?
  }

  /** The definitions whose classes a type shape mentions, outermost first. */
  function ClassRefs(t: TypeShape): seq<string> {
    match t
    case ClassRef(d) => [d]
    case ListOf(e) => ClassRefs(e)
    case _ => []
  }

  /** Every class a shape mentions is the class of an object definition of the root. */
  predicate RefersToClasses(root: Schema, t: TypeShape) {
    forall d | d in ClassRefs(t) ::
      Lookup(root.definitions, d).Some? && IsObjectDefinition(Lookup(root.definitions, d).value)
  }

  lemma FewerUnvisited(names: set<string>, visiting: set<string>, name: string)
    requires name in names && name !in visiting
    ensures |names - (visiting + {name})| < |names - visiting|
  {
    assert names - (visiting + {name}) == (names - visiting) - {name};
  }

  /**
   * The type of the property or element a schema node describes. A "$ref" to an object
   * definition is that definition's class; a "$ref" to any other definition is replaced
   * by the definition's own type. `visiting` holds the definitions being substituted.
   */
  function Infer(root: Schema, s: Schema, visiting: set<string>): (r: Result<TypeShape, GenerationError>)
    ensures r.Success? ==> RefersToClasses(root, r.value)
    decreases |Names(root.definitions) - visiting|, s
  {
    if s.reference.Some? then
      match Resolve(root, s.reference.value)
      case Failure(e) => Failure(e)
      case Success(name) =>
        var target := Lookup(root.definitions, name).value;
        if IsObjectDefinition(target) then Success(ClassRef(name))
        else if name in visiting then Failure(CircularReference(name))
        else
          FewerUnvisited(Names(root.definitions), visiting, name);
          Infer(root, target, visiting + {name})
    else if s.enumValues.Some? && s.jsonType.None? && AllStrings(s.enumValues.value) then
      Success(Str)
    else
      match s.jsonType
      case Some(StringType) =>
        if s.format == Some("uri") then Success(Uri)
        else if s.format == Some("date-time") then Success(DateTime)
        else Success(Str)
      case Some(IntegerType) => Success(Int)
      case Some(NumberType) => Success(Dbl)
      case Some(BooleanType) => Success(Bool)
      case Some(ArrayType) =>
        if s.items.None? then Success(ListOf(Obj))
        else (
          match Infer(root, s.items.value, visiting)
          case Failure(e) => Failure(e)
          case Success(element) => Success(ListOf(element)))
      case _ => Success(Obj)
  }

  /** The definitions being substituted only matter for detecting a cycle. */
  lemma {:induction false} InferIgnoresVisiting(root: Schema, s: Schema, outer: set<string>, inner: set<string>)
    requires inner <= outer
    requires Infer(root, s, outer).Success?
    ensures Infer(root, s, inner) == Infer(root, s, outer)
    decreases |Names(root.definitions) - inner|, s
  {
    if s.reference.Some? {
      match Resolve(root, s.reference.value)
      case Failure(_) =>
      case Success(name) =>
        var target := Lookup(root.definitions, name).value;
        if !IsObjectDefinition(target) {
          FewerUnvisited(Names(root.definitions), inner, name);
          InferIgnoresVisiting(root, target, outer + {name}, inner + {name});
        }
    } else if s.enumValues.Some? && s.jsonType.None? && AllStrings(s.enumValues.value) {
    } else if s.jsonType == Some(ArrayType) && s.items.Some? {
      InferIgnoresVisiting(root, s.items.value, outer, inner);
    }
  }

  /** A "$ref" to a definition that is not an object stands for the definition's own type. */
  lemma RefToValueDefinitionIsTransparent(root: Schema, name: string, target: Schema)
    requires Lookup(root.definitions, name) == Some(target) && !IsObjectDefinition(target)
    requires Infer(root, Ref(DefinitionsPointer + name), {}).Success?
    ensures Infer(root, Ref(DefinitionsPointer + name), {}) == Infer(root, target, {})
  {
    var reference := DefinitionsPointer + name;
    ResolveDefinitionPointer(root, name);
    assert Resolve(root, reference) == Success(name);
    assert Ref(reference).reference == Some(reference);
    assert {} + {name} == {name};
    assert Infer(root, Ref(reference), {}) == Infer(root, target, {name});
    InferIgnoresVisiting(root, target, {name}, {});
  }

  /** A "$ref" to an object definition is the class generated for it, named after it. */
  lemma RefToObjectDefinitionIsClass(root: Schema, name: string, target: Schema)
    requires Lookup(root.definitions, name) == Some(target) && IsObjectDefinition(target)
    ensures Infer(root, Ref(DefinitionsPointer + name), {}) == Success(ClassRef(name))
    ensures TypeName(ClassRef(name)) == PascalCase(name)
  {
    ResolveDefinitionPointer(root, name);
  }

  /** A definition whose "$ref" leads back to itself through non-object definitions is reported. */
  lemma SelfSubstitutionIsReported(root: Schema, name: string)
    requires Lookup(root.definitions, name) == Some(Ref(DefinitionsPointer + name))
    ensures Infer(root, Ref(DefinitionsPointer + name), {}) == Failure(CircularReference(name))
  {
    ResolveDefinitionPointer(root, name);
    ResolveDefinitionPointer(root, name);
  }

  /**
   * A type that cannot be inferred is reported with text taken from a "$ref": one written
   * in the node itself, or one in a definition the node's references led to.
   */
  lemma {:induction false} InferFailureQuotesReference(root: Schema, s: Schema, visiting: set<string>)
    requires Infer(root, s, visiting).Failure?
    ensures !Infer(root, s, visiting).error.RootNotObject?
    ensures QuotesReference(RefsOf(s) + DefinitionRefs(root.definitions), Infer(root, s, visiting).error)
    decreases |Names(root.definitions) - visiting|, s
  {
    var e := Infer(root, s, visiting).error;
    var refs := RefsOf(s) + DefinitionRefs(root.definitions);
    if s.reference.Some? {
      var reference := s.reference.value;
      assert reference in refs;
      match Resolve(root, reference)
      case Failure(_) =>
        assert Contains(reference, Culprit(e));
      case Success(name) =>
        var target := Lookup(root.definitions, name).value;
        if name in visiting {
          assert e == CircularReference(name);
          assert reference == DefinitionsPointer + name;
          ContainsSuffix(DefinitionsPointer, name);
        } else {
          FewerUnvisited(Names(root.definitions), visiting, name);
          assert Infer(root, s, visiting) == Infer(root, target, visiting + {name});
          InferFailureQuotesReference(root, target, visiting + {name});
          var j :| 0 <= j < |root.definitions| && root.definitions[j] == Property(name, target);
          DefinitionRefsIncluded(root.definitions, j);
          QuotesReferenceMono(RefsOf(target) + DefinitionRefs(root.definitions), refs, e);
        }
    } else {
      assert s.jsonType == Some(ArrayType) && s.items.Some?;
      assert e == Infer(root, s.items.value, visiting).error;
      InferFailureQuotesReference(root, s.items.value, visiting);
      QuotesReferenceMono(RefsOf(s.items.value) + DefinitionRefs(root.definitions), refs, e);
    }
  }

  // ---------------------------------------------------------------------------
  // Hints

  /** A directive of the hint table; the only one is "generate a dictionary". */
  datatype CodeGenHint = DictionaryHint

  /** Hints keyed by "ClassName.PropertyName", both Pascal-cased. */
  type HintDictionary = map<string, seq<CodeGenHint>>

  function HintKey(className: string, propertyName: string): string {
    className + "." + propertyName
  }

  predicate HasDictionaryHint(hints: HintDictionary, className: string, propertyName: string) {
    var key := HintKey(className, propertyName);
    key in hints && DictionaryHint in hints[key]
  }

  lemma FirstDotEndsClassName(className: string, propertyName: string)
    requires '.' !in className
    ensures HintKey(className, propertyName)[|className|] == '.'
    ensures forall i | 0 <= i < |className| :: HintKey(className, propertyName)[i] != '.'
  {
    forall i | 0 <= i < |className| ensures HintKey(className, propertyName)[i] != '.' {
      assert HintKey(className, propertyName)[i] == className[i];
    }
  }

  /**
   * A hint key names one property of one class: class names, being C# identifiers, have
   * no '.', so a table with a single dictionary hint applies to exactly that property.
   */
  lemma HintKeyIdentifiesProperty(className: string, propertyName: string, otherClass: string, otherProperty: string)
    requires '.' !in className && '.' !in otherClass
    ensures HintKey(className, propertyName) == HintKey(otherClass, otherProperty)
      <==> className == otherClass && propertyName == otherProperty
    ensures HasDictionaryHint(map[HintKey(className, propertyName) := [DictionaryHint]], otherClass, otherProperty)
      <==> className == otherClass && propertyName == otherProperty
  {
    var k1 := HintKey(className, propertyName);
    var k2 := HintKey(otherClass, otherProperty);
    FirstDotEndsClassName(className, propertyName);
    FirstDotEndsClassName(otherClass, otherProperty);
    if k1 == k2 {
      assert k2[|className|] == '.' && k1[|otherClass|] == '.';
      assert |className| == |otherClass|;
      assert className == k1[..|className|] && otherClass == k2[..|className|];
      assert propertyName == k1[|className| + 1..] && otherProperty == k2[|className| + 1..];
    }
  }

  /** The type of a property of class `className`, after consulting the hint table. */
  function InferProperty(root: Schema, hints: HintDictionary, className: string, p: Property): (r: Result<TypeShape, GenerationError>)
    ensures r.Success? ==> RefersToClasses(root, r.value)
    ensures HasDictionaryHint(hints, className, PascalCase(p.name)) && p.schema.reference.None? && p.schema.jsonType == Some(ObjectType)
      ==> r == Success(Dict)
    ensures r.Failure? ==> r == Infer(root, p.schema, {})
  {
    if p.schema.reference.None? && p.schema.jsonType == Some(ObjectType)
      && HasDictionaryHint(hints, className, PascalCase(p.name))
    then Success(Dict)
    else Infer(root, p.schema, {})
  }

  // ---------------------------------------------------------------------------
  // Classes

  datatype PropertyDef = PropertyDef(name: string, shape: TypeShape)

  datatype ClassDef = ClassDef(name: string, properties: seq<PropertyDef>)

  /** The property types of a class, in declaration order. */
  function Shapes(c: ClassDef): seq<TypeShape> {
    seq(|c.properties|, i requires 0 <= i < |c.properties| => c.properties[i].shape)
  }

  /** The generated property of a schema property. */
  function PropertyFor(root: Schema, hints: HintDictionary, className: string, p: Property): PropertyDef
    requires InferProperty(root, hints, className, p).Success?
  {
    PropertyDef(PascalCase(p.name), InferProperty(root, hints, className, p).value)
  }

  /** Property `i` is the first of `props` whose type cannot be inferred, and it fails with `e`. */
  predicate FirstFailingProperty(root: Schema, hints: HintDictionary, className: string, props: seq<Property>, e: GenerationError) {
    exists i | 0 <= i < |props| ::
      && InferProperty(root, hints, className, props[i]) == Failure(e)
      && forall k | 0 <= k < i :: InferProperty(root, hints, className, props[k]).Success?
  }

  lemma FirstFailingPropertyCons(root: Schema, hints: HintDictionary, className: string, props: seq<Property>, e: GenerationError)
    requires props != [] && InferProperty(root, hints, className, props[0]).Success?
    requires FirstFailingProperty(root, hints, className, props[1..], e)
    ensures FirstFailingProperty(root, hints, className, props, e)
  {
    var j :| 0 <= j < |props[1..]|
      && InferProperty(root, hints, className, props[1..][j]) == Failure(e)
      && forall k | 0 <= k < j :: InferProperty(root, hints, className, props[1..][k]).Success?;
    assert props[j + 1] == props[1..][j];
    forall k | 0 <= k < j + 1 ensures InferProperty(root, hints, className, props[k]).Success? {
      if k > 0 { assert props[k] == props[1..][k - 1]; }
    }
  }

  /**
   * The properties of a class, in the order of the schema's "properties"; the first
   * property whose type cannot be inferred makes the class fail.
   */
  function BuildProperties(root: Schema, hints: HintDictionary, className: string, props: seq<Property>): (r: Result<seq<PropertyDef>, GenerationError>)
    ensures r.Success? <==> forall i | 0 <= i < |props| :: InferProperty(root, hints, className, props[i]).Success?
    ensures r.Success? ==>
      && |r.value| == |props|
      && forall i | 0 <= i < |props| :: r.value[i] == PropertyFor(root, hints, className, props[i])
    ensures r.Failure? ==> FirstFailingProperty(root, hints, className, props, r.error)
    decreases |props|
  {
    if props == [] then Success([])
    else
      match InferProperty(root, hints, className, props[0])
      case Failure(e) => Failure(e)
      case Success(shape) =>
        match BuildProperties(root, hints, className, props[1..])
        case Failure(e) =>
          FirstFailingPropertyCons(root, hints, className, props, e);
          Failure(e)
        case Success(rest) =>
          assert forall i | 1 <= i < |props| :: props[i] == props[1..][i - 1];
          Success([PropertyDef(PascalCase(props[0].name), shape)] + rest)
  }

  /** The class generated for an object schema node. */
  function BuildClass(root: Schema, hints: HintDictionary, className: string, node: Schema): (r: Result<ClassDef, GenerationError>)
    ensures r.Success? <==> forall i | 0 <= i < |node.properties| :: InferProperty(root, hints, className, node.properties[i]).Success?
    ensures r.Success? ==> r.value.name == className && |r.value.properties| == |node.properties|
    ensures r.Success? ==> forall i | 0 <= i < |node.properties| ::
      r.value.properties[i] == PropertyFor(root, hints, className, node.properties[i])
    ensures r.Success? ==> forall i | 0 <= i < |r.value.properties| :: RefersToClasses(root, r.value.properties[i].shape)
    ensures r.Failure? ==> FirstFailingProperty(root, hints, className, node.properties, r.error)
  {
    match BuildProperties(root, hints, className, node.properties)
    case Failure(e) => Failure(e)
    case Success(ps) => Success(ClassDef(className, ps))
  }

  /** A class generated for the definition `definition`. */
  datatype DefinedClass = DefinedClass(definition: string, classDef: ClassDef)

  function DefinitionsOf(cs: seq<DefinedClass>): set<string> {
    set i | 0 <= i < |cs| :: cs[i].definition
  }

  /** The names of the object definitions among `defs`. */
  function ObjectDefinitionNames(defs: seq<Property>): set<string> {
    set i | 0 <= i < |defs| && IsObjectDefinition(defs[i].schema) :: defs[i].name
  }

  predicate DistinctDefinitions(cs: seq<DefinedClass>) {
    forall i, j | 0 <= i < j < |cs| :: cs[i].definition != cs[j].definition
  }

  /** The object definitions among `defs`, in document order. */
  function ObjectDefinitions(defs: seq<Property>): (r: seq<Property>)
    ensures forall i | 0 <= i < |r| :: IsObjectDefinition(r[i].schema) && r[i] in defs
    ensures forall j | 0 <= j < |defs| && IsObjectDefinition(defs[j].schema) :: defs[j] in r
    decreases |defs|
  {
    if defs == [] then []
    else
      var rest := ObjectDefinitions(defs[1..]);
      assert forall j | 1 <= j < |defs| :: defs[j] == defs[1..][j - 1];
      if IsObjectDefinition(defs[0].schema) then [defs[0]] + rest else rest
  }

  /** The class of definition `d` can be built. */
  predicate ClassBuilds(root: Schema, hints: HintDictionary, d: Property) {
    BuildClass(root, hints, PascalCase(d.name), d.schema).Success?
  }

  /** The class of every object definition among `defs` can be built. */
  predicate AllDefinitionsBuild(root: Schema, hints: HintDictionary, defs: seq<Property>) {
    forall j | 0 <= j < |defs| && IsObjectDefinition(defs[j].schema) :: ClassBuilds(root, hints, defs[j])
  }

  /**
   * Definition `j` is the first object definition of `defs` whose class fails to be
   * built, and it fails with `e`.
   */
  predicate FirstFailingDefinition(root: Schema, hints: HintDictionary, defs: seq<Property>, e: GenerationError) {
    exists j | 0 <= j < |defs| ::
      && IsObjectDefinition(defs[j].schema)
      && BuildClass(root, hints, PascalCase(defs[j].name), defs[j].schema) == Failure(e)
      && AllDefinitionsBuild(root, hints, defs[..j])
  }

  /** `cs` holds, in document order, the class built for each object definition of `defs`. */
  predicate InDocumentOrder(root: Schema, hints: HintDictionary, defs: seq<Property>, cs: seq<DefinedClass>) {
    var objects := ObjectDefinitions(defs);
    && |cs| == |objects|
    && forall i | 0 <= i < |cs| ::
      && cs[i].definition == objects[i].name
      && BuildClass(root, hints, PascalCase(objects[i].name), objects[i].schema) == Success(cs[i].classDef)
  }

  lemma ObjectDefinitionNamesCons(defs: seq<Property>)
    requires defs != []
    ensures ObjectDefinitionNames(defs) ==
      (if IsObjectDefinition(defs[0].schema) then {defs[0].name} else {}) + ObjectDefinitionNames(defs[1..])
  {
    forall n | n in ObjectDefinitionNames(defs)
      ensures n in (if IsObjectDefinition(defs[0].schema) then {defs[0].name} else {}) + ObjectDefinitionNames(defs[1..])
    {
      var i :| 0 <= i < |defs| && IsObjectDefinition(defs[i].schema) && defs[i].name == n;
      if i > 0 { assert defs[1..][i - 1] == defs[i]; }
    }
    forall n | n in ObjectDefinitionNames(defs[1..]) ensures n in ObjectDefinitionNames(defs) {
      var i :| 0 <= i < |defs[1..]| && IsObjectDefinition(defs[1..][i].schema) && defs[1..][i].name == n;
      assert defs[i + 1] == defs[1..][i];
    }
  }

  lemma DefinitionsOfCons(head: DefinedClass, rest: seq<DefinedClass>)
    ensures DefinitionsOf([head] + rest) == {head.definition} + DefinitionsOf(rest)
  {
    var all := [head] + rest;
    assert all[0] == head;
    forall n | n in DefinitionsOf(all) ensures n in {head.definition} + DefinitionsOf(rest) {
      var i :| 0 <= i < |all| && all[i].definition == n;
      if i > 0 { assert rest[i - 1] == all[i]; }
    }
    forall n | n in DefinitionsOf(rest) ensures n in DefinitionsOf(all) {
      var i :| 0 <= i < |rest| && rest[i].definition == n;
      assert all[i + 1] == rest[i];
    }
  }

  lemma UniqueNamesTail(defs: seq<Property>)
    requires defs != [] && UniqueNames(defs)
    ensures UniqueNames(defs[1..])
    ensures defs[0].name !in ObjectDefinitionNames(defs[1..])
  {
    forall i, j | 0 <= i < j < |defs[1..]| ensures defs[1..][i].name != defs[1..][j].name {
      assert defs[1..][i] == defs[i + 1] && defs[1..][j] == defs[j + 1];
    }
    forall i | 0 <= i < |defs[1..]| ensures defs[1..][i].name != defs[0].name {
      assert defs[1..][i] == defs[i + 1];
    }
  }

  lemma DistinctCons(head: DefinedClass, rest: seq<DefinedClass>)
    requires DistinctDefinitions(rest) && head.definition !in DefinitionsOf(rest)
    ensures DistinctDefinitions([head] + rest)
  {
    var all := [head] + rest;
    forall i, j | 0 <= i < j < |all| ensures all[i].definition != all[j].definition {
      assert all[j] == rest[j - 1];
      if i > 0 { assert all[i] == rest[i - 1]; }
    }
  }

  lemma AllDefinitionsBuildCons(root: Schema, hints: HintDictionary, defs: seq<Property>)
    requires defs != []
    ensures AllDefinitionsBuild(root, hints, defs) <==>
      && (IsObjectDefinition(defs[0].schema) ==> ClassBuilds(root, hints, defs[0]))
      && AllDefinitionsBuild(root, hints, defs[1..])
  {
    if AllDefinitionsBuild(root, hints, defs) {
      forall j | 0 <= j < |defs[1..]| && IsObjectDefinition(defs[1..][j].schema)
        ensures ClassBuilds(root, hints, defs[1..][j])
      {
        assert defs[1..][j] == defs[j + 1];
      }
    }
    if (IsObjectDefinition(defs[0].schema) ==> ClassBuilds(root, hints, defs[0])) && AllDefinitionsBuild(root, hints, defs[1..]) {
      forall j | 0 <= j < |defs| && IsObjectDefinition(defs[j].schema) ensures ClassBuilds(root, hints, defs[j]) {
        if j > 0 { assert defs[j] == defs[1..][j - 1]; }
      }
    }
  }

  /**
   * One class per object definition, built in the order of "definitions"; the first
   * object definition whose class cannot be built makes the whole step fail. Definitions
   * of any other type get no class: references to them are substituted by their type.
   */
  function DefineClasses(root: Schema, hints: HintDictionary, defs: seq<Property>): (r: Result<seq<DefinedClass>, GenerationError>)
    ensures r.Success? ==> forall i | 0 <= i < |r.value| :: r.value[i].classDef.name == PascalCase(r.value[i].definition)
    decreases |defs|
  {
    if defs == [] then Success([])
    else if !IsObjectDefinition(defs[0].schema) then DefineClasses(root, hints, defs[1..])
    else
      match BuildClass(root, hints, PascalCase(defs[0].name), defs[0].schema)
      case Failure(e) => Failure(e)
      case Success(c) =>
        match DefineClasses(root, hints, defs[1..])
        case Failure(e) => Failure(e)
        case Success(rest) =>
          var all := [DefinedClass(defs[0].name, c)] + rest;
          assert forall i | 0 < i < |all| :: all[i] == rest[i - 1];
          Success(all)
  }

  lemma InDocumentOrderCons(root: Schema, hints: HintDictionary, defs: seq<Property>, c: ClassDef, rest: seq<DefinedClass>)
    requires defs != [] && IsObjectDefinition(defs[0].schema)
    requires BuildClass(root, hints, PascalCase(defs[0].name), defs[0].schema) == Success(c)
    requires InDocumentOrder(root, hints, defs[1..], rest)
    ensures InDocumentOrder(root, hints, defs, [DefinedClass(defs[0].name, c)] + rest)
  {
    var all := [DefinedClass(defs[0].name, c)] + rest;
    var objects := ObjectDefinitions(defs);
    assert objects == [defs[0]] + ObjectDefinitions(defs[1..]);
    forall i | 0 < i < |all| ensures all[i] == rest[i - 1] && objects[i] == ObjectDefinitions(defs[1..])[i - 1] {
    }
  }

  /** The generated classes are those of the object definitions, in document order. */
  lemma {:induction false} DefineClassesInDocumentOrder(root: Schema, hints: HintDictionary, defs: seq<Property>)
    requires DefineClasses(root, hints, defs).Success?
    ensures InDocumentOrder(root, hints, defs, DefineClasses(root, hints, defs).value)
    decreases |defs|
  {
    if defs != [] {
      DefineClassesInDocumentOrder(root, hints, defs[1..]);
      var rest := DefineClasses(root, hints, defs[1..]).value;
      if IsObjectDefinition(defs[0].schema) {
        var c := BuildClass(root, hints, PascalCase(defs[0].name), defs[0].schema).value;
        InDocumentOrderCons(root, hints, defs, c, rest);
      } else {
        assert ObjectDefinitions(defs) == ObjectDefinitions(defs[1..]);
      }
    }
  }

  /**
   * The classes of the definitions are generated exactly when every object definition's
   * class can be built.
   */
  lemma {:induction false} DefineClassesSucceeds(root: Schema, hints: HintDictionary, defs: seq<Property>)
    ensures DefineClasses(root, hints, defs).Success? <==> AllDefinitionsBuild(root, hints, defs)
    decreases |defs|
  {
    if defs != [] {
      DefineClassesSucceeds(root, hints, defs[1..]);
      AllDefinitionsBuildCons(root, hints, defs);
    }
  }

  lemma FirstFailingDefinitionCons(root: Schema, hints: HintDictionary, defs: seq<Property>, e: GenerationError)
    requires defs != [] && (IsObjectDefinition(defs[0].schema) ==> ClassBuilds(root, hints, defs[0]))
    requires FirstFailingDefinition(root, hints, defs[1..], e)
    ensures FirstFailingDefinition(root, hints, defs, e)
  {
    var j :| 0 <= j < |defs[1..]|
      && IsObjectDefinition(defs[1..][j].schema)
      && BuildClass(root, hints, PascalCase(defs[1..][j].name), defs[1..][j].schema) == Failure(e)
      && AllDefinitionsBuild(root, hints, defs[1..][..j]);
    assert defs[j + 1] == defs[1..][j];
    var before := defs[..j + 1];
    forall k | 0 <= k < |before| && IsObjectDefinition(before[k].schema) ensures ClassBuilds(root, hints, before[k]) {
      if k > 0 { assert before[k] == defs[1..][..j][k - 1]; }
    }
    assert AllDefinitionsBuild(root, hints, before);
  }

  /**
   * When the classes of the definitions fail, the error is that of the first object
   * definition, in document order, whose class cannot be built.
   */
  lemma {:induction false} DefineClassesFailsAtFirstBadDefinition(root: Schema, hints: HintDictionary, defs: seq<Property>)
    requires DefineClasses(root, hints, defs).Failure?
    ensures FirstFailingDefinition(root, hints, defs, DefineClasses(root, hints, defs).error)
    decreases |defs|
  {
    var e := DefineClasses(root, hints, defs).error;
    if IsObjectDefinition(defs[0].schema) && !ClassBuilds(root, hints, defs[0]) {
      assert defs[..0] == [];
      assert BuildClass(root, hints, PascalCase(defs[0].name), defs[0].schema) == Failure(e);
    } else {
      assert DefineClasses(root, hints, defs[1..]) == Failure(e);
      DefineClassesFailsAtFirstBadDefinition(root, hints, defs[1..]);
      FirstFailingDefinitionCons(root, hints, defs, e);
    }
  }

  /** The generated classes are exactly those of the object definitions. */
  lemma {:induction false} DefineClassesCoversObjectDefinitions(root: Schema, hints: HintDictionary, defs: seq<Property>)
    requires DefineClasses(root, hints, defs).Success?
    ensures DefinitionsOf(DefineClasses(root, hints, defs).value) == ObjectDefinitionNames(defs)
    decreases |defs|
  {
    if defs != [] {
      DefineClassesCoversObjectDefinitions(root, hints, defs[1..]);
      ObjectDefinitionNamesCons(defs);
      var rest := DefineClasses(root, hints, defs[1..]).value;
      if IsObjectDefinition(defs[0].schema) {
        var c := BuildClass(root, hints, PascalCase(defs[0].name), defs[0].schema).value;
        DefinitionsOfCons(DefinedClass(defs[0].name, c), rest);
      }
    }
  }

  /** With distinct definition names, no definition gets two classes. */
  lemma {:induction false} DefineClassesAreDistinct(root: Schema, hints: HintDictionary, defs: seq<Property>)
    requires DefineClasses(root, hints, defs).Success? && UniqueNames(defs)
    ensures DistinctDefinitions(DefineClasses(root, hints, defs).value)
    decreases |defs|
  {
    if defs != [] {
      UniqueNamesTail(defs);
      DefineClassesAreDistinct(root, hints, defs[1..]);
      DefineClassesCoversObjectDefinitions(root, hints, defs[1..]);
      var rest := DefineClasses(root, hints, defs[1..]).value;
      if IsObjectDefinition(defs[0].schema) {
        var c := BuildClass(root, hints, PascalCase(defs[0].name), defs[0].schema).value;
        DistinctCons(DefinedClass(defs[0].name, c), rest);
      }
    }
  }

  /** A class that cannot be built quotes a "$ref" of its node or of a definition. */
  lemma ClassFailureQuotesReference(root: Schema, hints: HintDictionary, className: string, node: Schema)
    requires BuildClass(root, hints, className, node).Failure?
    ensures !BuildClass(root, hints, className, node).error.RootNotObject?
    ensures QuotesReference(RefsOf(node) + DefinitionRefs(root.definitions), BuildClass(root, hints, className, node).error)
  {
    var e := BuildClass(root, hints, className, node).error;
    var i :| 0 <= i < |node.properties|
      && InferProperty(root, hints, className, node.properties[i]) == Failure(e)
      && forall k | 0 <= k < i :: InferProperty(root, hints, className, node.properties[k]).Success?;
    InferFailureQuotesReference(root, node.properties[i].schema, {});
    PropertyRefsIncluded(node, i);
    QuotesReferenceMono(RefsOf(node.properties[i].schema) + DefinitionRefs(root.definitions),
                        RefsOf(node) + DefinitionRefs(root.definitions), e);
  }

  /** When the classes of the definitions fail, the error quotes a "$ref" of a definition. */
  lemma DefinitionFailureQuotesReference(root: Schema, hints: HintDictionary)
    requires DefineClasses(root, hints, root.definitions).Failure?
    ensures !DefineClasses(root, hints, root.definitions).error.RootNotObject?
    ensures QuotesReference(DefinitionRefs(root.definitions), DefineClasses(root, hints, root.definitions).error)
  {
    var defs := root.definitions;
    var e := DefineClasses(root, hints, defs).error;
    DefineClassesFailsAtFirstBadDefinition(root, hints, defs);
    var j :| 0 <= j < |defs|
      && IsObjectDefinition(defs[j].schema)
      && BuildClass(root, hints, PascalCase(defs[j].name), defs[j].schema) == Failure(e)
      && AllDefinitionsBuild(root, hints, defs[..j]);
    ClassFailureQuotesReference(root, hints, PascalCase(defs[j].name), defs[j].schema);
    DefinitionRefsIncluded(defs, j);
    QuotesReferenceMono(RefsOf(defs[j].schema) + DefinitionRefs(defs), DefinitionRefs(defs), e);
  }

  /** The classes generated from one schema: the root class and one per object definition. */
  datatype DataModel = DataModel(rootClass: ClassDef, definedClasses: seq<DefinedClass>)

  /** Every class a property of `c` mentions is among `known`. */
  predicate MentionsOnly(c: ClassDef, known: set<string>) {
    forall i, d | 0 <= i < |c.properties| && d in ClassRefs(c.properties[i].shape) :: d in known
  }

  /** Every class mentioned anywhere in the model is generated. */
  predicate Closed(m: DataModel) {
    var known := DefinitionsOf(m.definedClasses);
    && MentionsOnly(m.rootClass, known)
    && forall i | 0 <= i < |m.definedClasses| :: MentionsOnly(m.definedClasses[i].classDef, known)
  }

  lemma ResolvedRefsAreDefined(root: Schema, c: ClassDef)
    requires forall i | 0 <= i < |c.properties| :: RefersToClasses(root, c.properties[i].shape)
    ensures MentionsOnly(c, ObjectDefinitionNames(root.definitions))
  {
    forall i, d | 0 <= i < |c.properties| && d in ClassRefs(c.properties[i].shape)
      ensures d in ObjectDefinitionNames(root.definitions)
    {
      var target := Lookup(root.definitions, d).value;
      var j :| 0 <= j < |root.definitions| && root.definitions[j] == Property(d, target);
      assert IsObjectDefinition(root.definitions[j].schema);
    }
  }

  /**
   * Generates the data model of a schema whose root is an object: the root class, named
   * `rootClassName` Pascal-cased, then the classes of the object definitions in document
   * order. It succeeds exactly when the root class and the class of every object
   * definition can be built; a failure quotes the input it is about.
   */
  function Generate(root: Schema, rootClassName: string, hints: HintDictionary): (r: Result<DataModel, GenerationError>)
    ensures root.jsonType != Some(ObjectType) ==> r == Failure(RootNotObject(TypeKeyword(root.jsonType)))
    ensures root.jsonType == Some(ObjectType) ==>
      (r.Success? <==>
        && BuildClass(root, hints, PascalCase(rootClassName), root).Success?
        && AllDefinitionsBuild(root, hints, root.definitions))
    ensures root.jsonType == Some(ObjectType) && r.Failure? ==>
      !r.error.RootNotObject? && QuotesReference(SchemaRefs(root), r.error)
    ensures r.Success? ==>
      && root.jsonType == Some(ObjectType)
      && BuildClass(root, hints, PascalCase(rootClassName), root) == Success(r.value.rootClass)
      && InDocumentOrder(root, hints, root.definitions, r.value.definedClasses)
      && DefinitionsOf(r.value.definedClasses) == ObjectDefinitionNames(root.definitions)
      && (UniqueNames(root.definitions) ==> DistinctDefinitions(r.value.definedClasses))
      && Closed(r.value)
  {
    if root.jsonType != Some(ObjectType) then Failure(RootNotObject(TypeKeyword(root.jsonType)))
    else
      match BuildClass(root, hints, PascalCase(rootClassName), root)
      case Failure(e) =>
        ClassFailureQuotesReference(root, hints, PascalCase(rootClassName), root);
        Failure(e)
      case Success(rootClass) =>
        DefineClassesSucceeds(root, hints, root.definitions);
        match DefineClasses(root, hints, root.definitions)
        case Failure(e) =>
          DefinitionFailureQuotesReference(root, hints);
          QuotesReferenceMono(DefinitionRefs(root.definitions), SchemaRefs(root), e);
          Failure(e)
        case Success(cs) =>
          DefineClassesInDocumentOrder(root, hints, root.definitions);
          DefineClassesCoversObjectDefinitions(root, hints, root.definitions);
          assert UniqueNames(root.definitions) ==> DistinctDefinitions(cs) by {
            if UniqueNames(root.definitions) { DefineClassesAreDistinct(root, hints, root.definitions); }
          }
          ResolvedRefsAreDefined(root, rootClass);
          assert forall i | 0 <= i < |cs| :: MentionsOnly(cs[i].classDef, ObjectDefinitionNames(root.definitions)) by {
            forall i | 0 <= i < |cs| ensures MentionsOnly(cs[i].classDef, ObjectDefinitionNames(root.definitions)) {
              var objects := ObjectDefinitions(root.definitions);
              assert BuildClass(root, hints, PascalCase(objects[i].name), objects[i].schema) == Success(cs[i].classDef);
              ResolvedRefsAreDefined(root, cs[i].classDef);
            }
          }
          Success(DataModel(rootClass, cs))
  }

  /**
   * The message of a failed generation quotes the input: the root's "type" when the root
   * is not an object, and otherwise text taken from one of the schema's "$ref" values.
   */
  lemma GenerateFailureQuotesInput(root: Schema, rootClassName: string, hints: HintDictionary)
    requires Generate(root, rootClassName, hints).Failure?
    ensures var e := Generate(root, rootClassName, hints).error;
      && Contains(Message(e), Culprit(e))
      && (root.jsonType != Some(ObjectType) ==> Culprit(e) == TypeKeyword(root.jsonType))
      && (root.jsonType == Some(ObjectType) ==> exists ref | ref in SchemaRefs(root) :: Contains(ref, Culprit(e)))
  {
    MessageQuotesCulprit(Generate(root, rootClassName, hints).error);
  }

  /**
   * The members of the discriminator enum shared by all generated classes: the
   * uninitialized `None`, then one per class in the order the classes are generated.
   */
  function KindEnumMembers(m: DataModel): (r: seq<string>)
    ensures |r| == 2 + |m.definedClasses|
    ensures r[0] == "None" && r[1] == m.rootClass.name
    ensures forall i | 0 <= i < |m.definedClasses| :: r[i + 2] == m.definedClasses[i].classDef.name
  {
    ["None", m.rootClass.name] + seq(|m.definedClasses|, i requires 0 <= i < |m.definedClasses| => m.definedClasses[i].classDef.name)
  }
}
