/**
 * The members the generator writes into every class: GetHashCode, Equals and the
 * deep-copying Init behind the copy constructor and DeepClone. Their behaviour is driven
 * by the declared type shape of each property.
 */
module GeneratedMembers {
  import opened Wrappers
  import opened DataModelGenerator
  import JsonSchema

  // ---------------------------------------------------------------------------
  // 32-bit arithmetic of `unchecked` blocks

  const TwoTo31: int := 0x8000_0000
  const TwoTo32: int := 0x1_0000_0000

  type Int32 = x: int | -0x8000_0000 <= x < 0x8000_0000

  /** The value of an `int` expression evaluated without overflow checks. */
  function Wrap(x: int): (r: Int32)
    ensures r == x - TwoTo32 * ((x + TwoTo31) / TwoTo32)
  {
    (x + TwoTo31) % TwoTo32 - TwoTo31
  }

  /** `result = (result * 31) + h` */
  function Mix(acc: Int32, h: Int32): Int32 {
    Wrap(acc * 31 + h)
  }

  /** `result = result * 31` */
  function Scale(acc: Int32): Int32 {
    Wrap(acc * 31)
  }

  const Seed: Int32 := 17

  lemma WrapIsIdentityOnInt32(x: Int32)
    ensures Wrap(x) == x
  {
  }

  /** Adding a multiple of 2^32 does not change the wrapped value. */
  lemma WrapModulo(x: int, k: int)
    ensures Wrap(x + TwoTo32 * k) == Wrap(x)
  {
    var q := (x + TwoTo31) / TwoTo32;
    var r := (x + TwoTo31) % TwoTo32;
    assert x + TwoTo31 + TwoTo32 * k == TwoTo32 * (q + k) + r;
    assert (x + TwoTo31 + TwoTo32 * k) / TwoTo32 == q + k by {
      DivisionIsUnique(x + TwoTo31 + TwoTo32 * k, q + k, r);
    }
  }

  lemma DivisionIsUnique(n: int, q: int, r: int)
    requires 0 <= r < TwoTo32 && n == TwoTo32 * q + r
    ensures n / TwoTo32 == q
  {
  }

  /** Wrapping after every step gives the same result as wrapping once at the end. */
  lemma MixIsModular(x: int, h: Int32)
    ensures Mix(Wrap(x), h) == Wrap(x * 31 + h)
  {
    var k := (x + TwoTo31) / TwoTo32;
    assert Wrap(x) * 31 + h == x * 31 + h + TwoTo32 * (-31 * k);
    WrapModulo(x * 31 + h, -31 * k);
  }

  // ---------------------------------------------------------------------------
  // Instances

  /** Property values of the built-in types. */
  datatype Prim =
    | Text(text: string)
    | Number(number: real)
    | Flag(flag: bool)
    | Integer(integer: Int32)
    | Address(uri: string)
    | Instant(ticks: int)
    | Other(id: int)

  /**
   * A property value. An `Instance` holds the property values of an instance of a
   * generated class, in declaration order; its class is given by the declared shape.
   */
  datatype Value =
    | Null
    | Leaf(prim: Prim)
    | Instance(fields: seq<Value>)
    | List(items: seq<Value>)
    | Dictionary(entries: map<string, string>)

  /**
   * What the generated members depend on besides the values: the property types of each
   * definition's class, and the library hash codes of primitives and dictionaries.
   */
  datatype Env = Env(
    classes: map<string, seq<TypeShape>>,
    primHash: Prim -> Int32,
    dictHash: map<string, string> -> Int32)

  /** The property types of the generated classes, keyed by definition. */
  function ClassTable(cs: seq<DefinedClass>): (r: map<string, seq<TypeShape>>)
    ensures r.Keys == DefinitionsOf(cs)
  {
    if cs == [] then map[]
    else
      assert cs == [cs[0]] + cs[1..];
      DefinitionsOfCons(cs[0], cs[1..]);
      ClassTable(cs[1..])[cs[0].definition := Shapes(cs[0].classDef)]
  }

  /** With one class per definition, the table gives each class its own property types. */
  lemma {:induction false} ClassTableShapes(cs: seq<DefinedClass>, i: nat)
    requires DistinctDefinitions(cs) && i < |cs|
    ensures ClassTable(cs)[cs[i].definition] == Shapes(cs[i].classDef)
  {
    if i > 0 {
      assert DistinctDefinitions(cs[1..]) by {
        forall j, k | 0 <= j < k < |cs[1..]| ensures cs[1..][j].definition != cs[1..][k].definition {
          assert cs[1..][j] == cs[j + 1] && cs[1..][k] == cs[k + 1];
        }
      }
      assert cs[1..][i - 1] == cs[i];
      ClassTableShapes(cs[1..], i - 1);
    }
  }

  /** The environment of a generated data model. */
  function ModelEnv(m: DataModel, primHash: Prim -> Int32, dictHash: map<string, string> -> Int32): Env {
    Env(ClassTable(m.definedClasses), primHash, dictHash)
  }

  function ClassShapes(env: Env, definition: string): seq<TypeShape> {
    if definition in env.classes then env.classes[definition] else []
  }

  /**
   * The environment of a generated data model knows every class the model mentions, and
   * gives each defined class the property types it was generated with.
   */
  lemma GeneratedModelEnv(root: JsonSchema.Schema, rootClassName: string, hints: HintDictionary,
                          primHash: Prim -> Int32, dictHash: map<string, string> -> Int32)
    requires Generate(root, rootClassName, hints).Success? && JsonSchema.UniqueNames(root.definitions)
    ensures var m := Generate(root, rootClassName, hints).value;
      var env := ModelEnv(m, primHash, dictHash);
      && env.classes.Keys == ObjectDefinitionNames(root.definitions)
      && (forall i | 0 <= i < |m.definedClasses| ::
            ClassShapes(env, m.definedClasses[i].definition) == Shapes(m.definedClasses[i].classDef))
      && (forall i, d | 0 <= i < |m.rootClass.properties| && d in ClassRefs(m.rootClass.properties[i].shape) ::
            d in env.classes)
      && (forall j, i, d | 0 <= j < |m.definedClasses| && 0 <= i < |m.definedClasses[j].classDef.properties|
            && d in ClassRefs(m.definedClasses[j].classDef.properties[i].shape) :: d in env.classes)
  {
    var m := Generate(root, rootClassName, hints).value;
    forall i | 0 <= i < |m.definedClasses|
      ensures ClassTable(m.definedClasses)[m.definedClasses[i].definition] == Shapes(m.definedClasses[i].classDef)
    {
      ClassTableShapes(m.definedClasses, i);
    }
  }

  /** The declared type of field `i`; `object` past the end of the declared properties. */
  function ShapeAt(shapes: seq<TypeShape>, i: nat): TypeShape {
    if i < |shapes| then shapes[i] else Obj
  }

  /** The .NET value types: they are never null and always contribute to the hash. */
  predicate IsValueType(t: TypeShape) {
    t.Dbl? || t.Bool? || t.Int? || t.DateTime?
  }

  /** The `GetHashCode()` of a value that is not a generated class or a list. */
  function LeafHash(env: Env, v: Value): Int32 {
    match v
    case Leaf(p) => env.primHash(p)
    case Dictionary(m) => env.dictHash(m)
    case _ => 0
  }

  // ---------------------------------------------------------------------------
  // GetHashCode

  /**
   * The accumulator after the statements generated for one property (or list element)
   * of type `t` holding `v`, starting from `acc`.
   */
  function PropertyHash(env: Env, t: TypeShape, v: Value, acc: Int32): (r: Int32)
    ensures v.Null? && !IsValueType(t) ==> r == acc
    decreases v, 1, 0
  {
    if t.ListOf? then
      if v.List? then ItemsHash(env, t.element, v, |v.items|, acc) else acc
    else if IsValueType(t) then Mix(acc, LeafHash(env, v))
    else if v.Null? then acc
    else if t.ClassRef? && v.Instance? then
      Mix(acc, FieldsHash(env, ClassShapes(env, t.definition), v, |v.fields|, Seed))
    else Mix(acc, LeafHash(env, v))
  }

  /** The accumulator after the `foreach` over the first `n` items of a list. */
  function ItemsHash(env: Env, element: TypeShape, list: Value, n: nat, acc: Int32): Int32
    requires list.List? && n <= |list.items|
    decreases list, 0, n
  {
    if n == 0 then acc
    else PropertyHash(env, element, list.items[n - 1], Scale(ItemsHash(env, element, list, n - 1, acc)))
  }

  /** The accumulator after the statements for the first `n` properties of an instance. */
  function FieldsHash(env: Env, shapes: seq<TypeShape>, inst: Value, n: nat, acc: Int32): Int32
    requires inst.Instance? && n <= |inst.fields|
    decreases inst, 0, n
  {
    if n == 0 then acc
    else PropertyHash(env, ShapeAt(shapes, n - 1), inst.fields[n - 1], FieldsHash(env, shapes, inst, n - 1, acc))
  }

  /** The result of `GetHashCode()` of an instance with the given property types and values. */
  function ClassHash(env: Env, shapes: seq<TypeShape>, fields: seq<Value>): (r: Int32)
    ensures fields == [] ==> r == Seed
  {
    FieldsHash(env, shapes, Instance(fields), |fields|, Seed)
  }

  /** The hash of the first `n` properties depends only on those properties. */
  lemma {:induction false} FieldsHashPrefix(env: Env, shapes: seq<TypeShape>, a: Value, b: Value, n: nat, acc: Int32)
    requires a.Instance? && b.Instance? && n <= |a.fields| && n <= |b.fields|
    requires a.fields[..n] == b.fields[..n]
    ensures FieldsHash(env, shapes, a, n, acc) == FieldsHash(env, shapes, b, n, acc)
  {
    if n > 0 {
      assert a.fields[..n - 1] == a.fields[..n][..n - 1];
      assert b.fields[..n - 1] == b.fields[..n][..n - 1];
      assert a.fields[n - 1] == a.fields[..n][n - 1];
      assert b.fields[n - 1] == b.fields[..n][n - 1];
      FieldsHashPrefix(env, shapes, a, b, n - 1, acc);
    }
  }

  /**
   * `GetHashCode` folds the properties in declaration order: the hash of a class is the
   * last property's statements applied to the hash of the properties before it.
   */
  lemma ClassHashFolds(env: Env, shapes: seq<TypeShape>, fields: seq<Value>)
    requires fields != []
    ensures ClassHash(env, shapes, fields)
      == PropertyHash(env, ShapeAt(shapes, |fields| - 1), fields[|fields| - 1], ClassHash(env, shapes, fields[..|fields| - 1]))
  {
    var n := |fields| - 1;
    assert fields[..n][..n] == fields[..n];
    FieldsHashPrefix(env, shapes, Instance(fields), Instance(fields[..n]), n, Seed);
  }

  /** The hash of a list prefix depends on nothing but the prefix. */
  lemma {:induction false} ItemsHashPrefix(env: Env, element: TypeShape, a: Value, b: Value, n: nat, acc: Int32)
    requires a.List? && b.List? && n <= |a.items| && n <= |b.items|
    requires a.items[..n] == b.items[..n]
    ensures ItemsHash(env, element, a, n, acc) == ItemsHash(env, element, b, n, acc)
  {
    if n > 0 {
      assert a.items[..n - 1] == a.items[..n][..n - 1];
      assert b.items[..n - 1] == b.items[..n][..n - 1];
      assert a.items[n - 1] == a.items[..n][n - 1];
      assert b.items[n - 1] == b.items[..n][n - 1];
      ItemsHashPrefix(env, element, a, b, n - 1, acc);
    }
  }

  /** Hashing a list is a left fold: the hash of `xs + ys` continues from the hash of `xs`. */
  lemma {:induction false} ItemsHashAppend(env: Env, element: TypeShape, xs: seq<Value>, ys: seq<Value>, acc: Int32)
    ensures ItemsHash(env, element, List(xs + ys), |xs + ys|, acc)
      == ItemsHash(env, element, List(ys), |ys|, ItemsHash(env, element, List(xs), |xs|, acc))
    decreases |ys|
  {
    if ys == [] {
      assert xs + ys == xs;
    } else {
      var init := ys[..|ys| - 1];
      assert (xs + ys)[..|xs + ys| - 1] == xs + init;
      ItemsHashAppend(env, element, xs, init, acc);
      ItemsHashPrefix(env, element, List(xs + ys), List(xs + init), |xs + init|, acc);
      assert (xs + init)[..|xs + init|] == xs + init;
      ItemsHashPrefix(env, element, List(ys), List(init), |init|, ItemsHash(env, element, List(xs), |xs|, acc));
      assert (xs + ys)[|xs + ys| - 1] == ys[|ys| - 1];
    }
  }

  /** A null list and an empty list both leave the hash unchanged. */
  lemma NullAndEmptyListHashAlike(env: Env, element: TypeShape, acc: Int32)
    ensures PropertyHash(env, ListOf(element), Null, acc) == acc
    ensures PropertyHash(env, ListOf(element), List([]), acc) == acc
  {
  }

  /** A null element of a list of a reference type still multiplies the accumulator by 31. */
  lemma NullElementStillShifts(env: Env, element: TypeShape, acc: Int32)
    requires !IsValueType(element) && !element.ListOf?
    ensures PropertyHash(env, ListOf(element), List([Null]), acc) == Scale(acc)
  {
  }

  /**
   * The class of the "Properties" test, with properties string, double, bool and int:
   * the string is skipped when null, the value types always contribute.
   */
  lemma BuiltInPropertiesHashExample(env: Env, s: Value, d: Value, b: Value, i: Value)
    ensures ClassHash(env, [Str, Dbl, Bool, Int], [s, d, b, i])
      == Mix(Mix(Mix(if s.Null? then Seed else Mix(Seed, LeafHash(env, s)),
                     LeafHash(env, d)), LeafHash(env, b)), LeafHash(env, i))
  {
    var inst := Instance([s, d, b, i]);
    var shapes := [Str, Dbl, Bool, Int];
    var h0 := if s.Null? then Seed else Mix(Seed, LeafHash(env, s));
    assert FieldsHash(env, shapes, inst, 1, Seed) == h0;
    assert FieldsHash(env, shapes, inst, 2, Seed) == Mix(h0, LeafHash(env, d));
    assert FieldsHash(env, shapes, inst, 3, Seed) == Mix(Mix(h0, LeafHash(env, d)), LeafHash(env, b));
    assert FieldsHash(env, shapes, inst, 4, Seed) == Mix(Mix(Mix(h0, LeafHash(env, d)), LeafHash(env, b)), LeafHash(env, i));
    assert ClassHash(env, shapes, [s, d, b, i]) == FieldsHash(env, shapes, inst, 4, Seed);
  }

  /** A value-typed property mixes its value's hash into the hash of the properties before it. */
  lemma ValueTypedFieldHash(env: Env, shapes: seq<TypeShape>, inst: Value, n: nat, x: int)
    requires inst.Instance? && 0 < n <= |inst.fields| && IsValueType(ShapeAt(shapes, n - 1))
    requires FieldsHash(env, shapes, inst, n - 1, Seed) == Wrap(x)
    ensures FieldsHash(env, shapes, inst, n, Seed) == Wrap(x * 31 + LeafHash(env, inst.fields[n - 1]))
  {
    MixIsModular(x, LeafHash(env, inst.fields[n - 1]));
  }

  /** Unchecked arithmetic: the hash of four value-typed properties in closed form. */
  lemma ValueTypesHashClosedForm(env: Env, d: Value, b: Value, i: Value, t: Value)
    ensures ClassHash(env, [Dbl, Bool, Int, DateTime], [d, b, i, t])
      == Wrap(17 * 31 * 31 * 31 * 31 + LeafHash(env, d) * 31 * 31 * 31
              + LeafHash(env, b) * 31 * 31 + LeafHash(env, i) * 31 + LeafHash(env, t))
  {
    var inst := Instance([d, b, i, t]);
    var shapes := [Dbl, Bool, Int, DateTime];
    var h1: int, h2: int, h3: int, h4: int := LeafHash(env, d), LeafHash(env, b), LeafHash(env, i), LeafHash(env, t);
    var x1 := 17 * 31 + h1;
    var x2 := x1 * 31 + h2;
    var x3 := x2 * 31 + h3;
    WrapIsIdentityOnInt32(Seed);
    ValueTypedFieldHash(env, shapes, inst, 1, 17);
    ValueTypedFieldHash(env, shapes, inst, 2, x1);
    ValueTypedFieldHash(env, shapes, inst, 3, x2);
    ValueTypedFieldHash(env, shapes, inst, 4, x3);
    assert x3 * 31 + h4 == 17 * 31 * 31 * 31 * 31 + h1 * 31 * 31 * 31 + h2 * 31 * 31 + h3 * 31 + h4;
  }

  /** The "array-valued property" test: each element shifts, non-null elements then add. */
  lemma ArrayPropertyHashExample(env: Env, x: Value)
    requires !x.Null?
    ensures ClassHash(env, [ListOf(Obj)], [List([x, Null])]) == Scale(Mix(Scale(Seed), LeafHash(env, x)))
  {
    var list := List([x, Null]);
    assert ItemsHash(env, Obj, list, 1, Seed) == Mix(Scale(Seed), LeafHash(env, x));
    assert ItemsHash(env, Obj, list, 2, Seed) == Scale(Mix(Scale(Seed), LeafHash(env, x)));
    assert FieldsHash(env, [ListOf(Obj)], Instance([list]), 1, Seed) == ItemsHash(env, Obj, list, 2, Seed);
  }

  method HashValue(env: Env, t: TypeShape, v: Value, acc: Int32) returns (r: Int32)
    ensures r == PropertyHash(env, t, v, acc)
    decreases v, 1
  {
    if t.ListOf? {
      r := acc;
      if v.List? {
        var i := 0;
        while i < |v.items|
          invariant 0 <= i <= |v.items|
          invariant r == ItemsHash(env, t.element, v, i, acc)
        {
          r := Scale(r);
          r := HashValue(env, t.element, v.items[i], r);
          i := i + 1;
        }
      }
    } else if IsValueType(t) {
      r := Mix(acc, LeafHash(env, v));
    } else if v.Null? {
      r := acc;
    } else if t.ClassRef? && v.Instance? {
      var h := HashFields(env, ClassShapes(env, t.definition), v, Seed);
      r := Mix(acc, h);
    } else {
      r := Mix(acc, LeafHash(env, v));
    }
  }

  method HashFields(env: Env, shapes: seq<TypeShape>, inst: Value, acc: Int32) returns (r: Int32)
    requires inst.Instance?
    ensures r == FieldsHash(env, shapes, inst, |inst.fields|, acc)
    decreases inst, 0
  {
    r := acc;
    var i := 0;
    while i < |inst.fields|
      invariant 0 <= i <= |inst.fields|
      invariant r == FieldsHash(env, shapes, inst, i, acc)
    {
      r := HashValue(env, ShapeAt(shapes, i), inst.fields[i], r);
      i := i + 1;
    }
  }

  // ---------------------------------------------------------------------------
  // Equals

  /**
   * The comparison generated for one property (or list element) of type `t`: lists by
   * count and element, class instances by their own Equals, everything else by value.
   */
  function PropertyEquals(env: Env, t: TypeShape, a: Value, b: Value): (r: bool)
    ensures a.Null? || b.Null? ==> (r <==> a == b)
    decreases a, 1, 0
  {
    if t.ListOf? && a.List? && b.List? then
      |a.items| == |b.items| && ItemsEqual(env, t.element, a, b, |a.items|)
    else if t.ClassRef? && a.Instance? && b.Instance? then
      |a.fields| == |b.fields| && FieldsEqual(env, ClassShapes(env, t.definition), a, b, |a.fields|)
    else a == b
  }

  /** The first `n` items of two lists compare equal. */
  function ItemsEqual(env: Env, element: TypeShape, a: Value, b: Value, n: nat): bool
    requires a.List? && b.List? && n <= |a.items| && n <= |b.items|
    decreases a, 0, n
  {
    n == 0 || (ItemsEqual(env, element, a, b, n - 1) && PropertyEquals(env, element, a.items[n - 1], b.items[n - 1]))
  }

  /** The first `n` properties of two instances compare equal. */
  function FieldsEqual(env: Env, shapes: seq<TypeShape>, a: Value, b: Value, n: nat): bool
    requires a.Instance? && b.Instance? && n <= |a.fields| && n <= |b.fields|
    decreases a, 0, n
  {
    n == 0 || (FieldsEqual(env, shapes, a, b, n - 1) && PropertyEquals(env, ShapeAt(shapes, n - 1), a.fields[n - 1], b.fields[n - 1]))
  }

  /** `Equals(C other)` on a non-null `other` of the same class. */
  predicate ClassEquals(env: Env, shapes: seq<TypeShape>, a: seq<Value>, b: seq<Value>): (r: bool)
    ensures r <==> a == b
  {
    if |a| == |b| then
      FieldsEqualIsPrefixEquality(env, shapes, Instance(a), Instance(b), |a|);
      assert a[..|a|] == a && b[..|b|] == b;
      FieldsEqual(env, shapes, Instance(a), Instance(b), |a|)
    else false
  }

  /** The generated comparison is exactly value equality: reflexive, symmetric and transitive. */
  lemma {:induction false} PropertyEqualsIsEquality(env: Env, t: TypeShape, a: Value, b: Value)
    ensures PropertyEquals(env, t, a, b) <==> a == b
    decreases a, 1, 0
  {
    if t.ListOf? && a.List? && b.List? {
      if |a.items| == |b.items| {
        ItemsEqualIsPrefixEquality(env, t.element, a, b, |a.items|);
        assert a.items[..|a.items|] == a.items && b.items[..|b.items|] == b.items;
      }
    } else if t.ClassRef? && a.Instance? && b.Instance? {
      if |a.fields| == |b.fields| {
        FieldsEqualIsPrefixEquality(env, ClassShapes(env, t.definition), a, b, |a.fields|);
        assert a.fields[..|a.fields|] == a.fields && b.fields[..|b.fields|] == b.fields;
      }
    }
  }

  lemma {:induction false} ItemsEqualIsPrefixEquality(env: Env, element: TypeShape, a: Value, b: Value, n: nat)
    requires a.List? && b.List? && n <= |a.items| && n <= |b.items|
    ensures ItemsEqual(env, element, a, b, n) <==> a.items[..n] == b.items[..n]
    decreases a, 0, n
  {
    if n > 0 {
      ItemsEqualIsPrefixEquality(env, element, a, b, n - 1);
      PropertyEqualsIsEquality(env, element, a.items[n - 1], b.items[n - 1]);
      assert a.items[..n] == a.items[..n - 1] + [a.items[n - 1]];
      assert b.items[..n] == b.items[..n - 1] + [b.items[n - 1]];
      if a.items[..n] == b.items[..n] {
        assert a.items[..n - 1] == a.items[..n][..n - 1];
        assert b.items[..n - 1] == b.items[..n][..n - 1];
        assert a.items[n - 1] == a.items[..n][n - 1];
      }
    }
  }

  lemma {:induction false} FieldsEqualIsPrefixEquality(env: Env, shapes: seq<TypeShape>, a: Value, b: Value, n: nat)
    requires a.Instance? && b.Instance? && n <= |a.fields| && n <= |b.fields|
    ensures FieldsEqual(env, shapes, a, b, n) <==> a.fields[..n] == b.fields[..n]
    decreases a, 0, n
  {
    if n > 0 {
      FieldsEqualIsPrefixEquality(env, shapes, a, b, n - 1);
      PropertyEqualsIsEquality(env, ShapeAt(shapes, n - 1), a.fields[n - 1], b.fields[n - 1]);
      assert a.fields[..n] == a.fields[..n - 1] + [a.fields[n - 1]];
      assert b.fields[..n] == b.fields[..n - 1] + [b.fields[n - 1]];
      if a.fields[..n] == b.fields[..n] {
        assert a.fields[..n - 1] == a.fields[..n][..n - 1];
        assert b.fields[..n - 1] == b.fields[..n][..n - 1];
        assert a.fields[n - 1] == a.fields[..n][n - 1];
      }
    }
  }

  /** Instances that compare equal have equal hash codes. */
  lemma EqualInstancesHashAlike(env: Env, shapes: seq<TypeShape>, a: seq<Value>, b: seq<Value>)
    requires ClassEquals(env, shapes, a, b)
    ensures ClassHash(env, shapes, a) == ClassHash(env, shapes, b)
  {
  }

  /** A list value as declared: null or a list. */
  predicate IsListValue(v: Value) {
    v.Null? || v.List?
  }

  /**
   * Two lists compare equal iff both are null, or both are non-null with the same count
   * and pairwise equal elements in order; exactly one null makes them unequal.
   */
  lemma {:induction false} ListEqualityRule(env: Env, element: TypeShape, a: Value, b: Value)
    requires IsListValue(a) && IsListValue(b)
    ensures PropertyEquals(env, ListOf(element), a, b) <==>
      (a.Null? && b.Null?) ||
      (a.List? && b.List? && |a.items| == |b.items| &&
        forall i | 0 <= i < |a.items| :: PropertyEquals(env, element, a.items[i], b.items[i]))
  {
    if a.List? && b.List? && |a.items| == |b.items| {
      ItemsEqualAll(env, element, a, b, |a.items|);
    }
  }

  lemma {:induction false} ItemsEqualAll(env: Env, element: TypeShape, a: Value, b: Value, n: nat)
    requires a.List? && b.List? && n <= |a.items| && n <= |b.items|
    ensures ItemsEqual(env, element, a, b, n) <==>
      forall i | 0 <= i < n :: PropertyEquals(env, element, a.items[i], b.items[i])
  {
    if n > 0 {
      ItemsEqualAll(env, element, a, b, n - 1);
    }
  }

  /** Unequal at a position below `n` makes the first `n` unequal. */
  lemma {:induction false} ItemsEqualDownward(env: Env, element: TypeShape, a: Value, b: Value, m: nat, n: nat)
    requires a.List? && b.List? && m <= n <= |a.items| && n <= |b.items|
    requires ItemsEqual(env, element, a, b, n)
    ensures ItemsEqual(env, element, a, b, m)
    decreases n
  {
    if m < n {
      ItemsEqualDownward(env, element, a, b, m, n - 1);
    }
  }

  lemma {:induction false} FieldsEqualDownward(env: Env, shapes: seq<TypeShape>, a: Value, b: Value, m: nat, n: nat)
    requires a.Instance? && b.Instance? && m <= n <= |a.fields| && n <= |b.fields|
    requires FieldsEqual(env, shapes, a, b, n)
    ensures FieldsEqual(env, shapes, a, b, m)
    decreases n
  {
    if m < n {
      FieldsEqualDownward(env, shapes, a, b, m, n - 1);
    }
  }

  /** A null list and an empty list hash alike but do not compare equal. */
  lemma NullIsNotTheEmptyList(env: Env, element: TypeShape)
    ensures !PropertyEquals(env, ListOf(element), Null, List([]))
    ensures PropertyHash(env, ListOf(element), Null, Seed) == PropertyHash(env, ListOf(element), List([]), Seed)
  {
  }

  method EqualValues(env: Env, t: TypeShape, a: Value, b: Value) returns (r: bool)
    ensures r == PropertyEquals(env, t, a, b)
    decreases a, 1
  {
    if t.ListOf? && a.List? && b.List? {
      if |a.items| != |b.items| {
        return false;
      }
      var i := 0;
      while i < |a.items|
        invariant 0 <= i <= |a.items|
        invariant ItemsEqual(env, t.element, a, b, i)
      {
        var same := EqualValues(env, t.element, a.items[i], b.items[i]);
        if !same {
          if ItemsEqual(env, t.element, a, b, |a.items|) {
            ItemsEqualDownward(env, t.element, a, b, i + 1, |a.items|);
          }
          return false;
        }
        i := i + 1;
      }
      r := true;
    } else if t.ClassRef? && a.Instance? && b.Instance? {
      r := EqualFields(env, ClassShapes(env, t.definition), a, b);
    } else {
      r := a == b;
    }
  }

  method EqualFields(env: Env, shapes: seq<TypeShape>, a: Value, b: Value) returns (r: bool)
    requires a.Instance? && b.Instance?
    ensures r == (|a.fields| == |b.fields| && FieldsEqual(env, shapes, a, b, |a.fields|))
    decreases a, 0
  {
    if |a.fields| != |b.fields| {
      return false;
    }
    var i := 0;
    while i < |a.fields|
      invariant 0 <= i <= |a.fields|
      invariant FieldsEqual(env, shapes, a, b, i)
    {
      var same := EqualValues(env, ShapeAt(shapes, i), a.fields[i], b.fields[i]);
      if !same {
        if FieldsEqual(env, shapes, a, b, |a.fields|) {
          FieldsEqualDownward(env, shapes, a, b, i + 1, |a.fields|);
        }
        return false;
      }
      i := i + 1;
    }
    r := true;
  }

  // ---------------------------------------------------------------------------
  // Deep copy

  /**
   * The value `Init` stores for an argument of type `t`: a list is rebuilt element by
   * element, an instance of a generated class is copy-constructed, a dictionary is copied
   * pair by pair, and everything else (null included) is taken as it is.
   */
  function PropertyCopy(env: Env, t: TypeShape, v: Value): (r: Value)
    ensures r == v
    decreases v, 1, 0
  {
    if t.ListOf? && v.List? then List(ItemsCopy(env, t.element, v, |v.items|))
    else if t.ClassRef? && v.Instance? then Instance(FieldsCopy(env, ClassShapes(env, t.definition), v, |v.fields|))
    else if t.Dict? && v.Dictionary? then Dictionary(map k | k in v.entries :: v.entries[k])
    else v
  }

  /** The copies of the first `n` items, in order. */
  function ItemsCopy(env: Env, element: TypeShape, list: Value, n: nat): (r: seq<Value>)
    requires list.List? && n <= |list.items|
    ensures r == list.items[..n]
    decreases list, 0, n
  {
    if n == 0 then []
    else
      var init := ItemsCopy(env, element, list, n - 1);
      assert list.items[..n] == list.items[..n - 1] + [list.items[n - 1]];
      init + [PropertyCopy(env, element, list.items[n - 1])]
  }

  /** The copies of the first `n` properties of an instance, in order. */
  function FieldsCopy(env: Env, shapes: seq<TypeShape>, inst: Value, n: nat): (r: seq<Value>)
    requires inst.Instance? && n <= |inst.fields|
    ensures r == inst.fields[..n]
    decreases inst, 0, n
  {
    if n == 0 then []
    else
      var init := FieldsCopy(env, shapes, inst, n - 1);
      assert inst.fields[..n] == inst.fields[..n - 1] + [inst.fields[n - 1]];
      init + [PropertyCopy(env, ShapeAt(shapes, n - 1), inst.fields[n - 1])]
  }

  method CopyValue(env: Env, t: TypeShape, v: Value) returns (r: Value)
    ensures r == PropertyCopy(env, t, v)
    decreases v, 1
  {
    if t.ListOf? && v.List? {
      var destination := [];
      var i := 0;
      while i < |v.items|
        invariant 0 <= i <= |v.items|
        invariant destination == ItemsCopy(env, t.element, v, i)
      {
        var item := CopyValue(env, t.element, v.items[i]);
        destination := destination + [item];
        i := i + 1;
      }
      r := List(destination);
    } else if t.ClassRef? && v.Instance? {
      var fields := CopyFields(env, ClassShapes(env, t.definition), v);
      r := Instance(fields);
    } else if t.Dict? && v.Dictionary? {
      r := Dictionary(map k | k in v.entries :: v.entries[k]);
    } else {
      r := v;
    }
  }

  /** The copy constructor of a generated class applied to a non-null instance. */
  method CopyFields(env: Env, shapes: seq<TypeShape>, inst: Value) returns (r: seq<Value>)
    requires inst.Instance?
    ensures r == FieldsCopy(env, shapes, inst, |inst.fields|)
    decreases inst, 0
  {
    r := [];
    var i := 0;
    while i < |inst.fields|
      invariant 0 <= i <= |inst.fields|
      invariant r == FieldsCopy(env, shapes, inst, i)
    {
      var field := CopyValue(env, ShapeAt(shapes, i), inst.fields[i]);
      r := r + [field];
      i := i + 1;
    }
  }

  /** A copy compares equal to its source and has the same hash code. */
  lemma CopyIsEqual(env: Env, t: TypeShape, v: Value, acc: Int32)
    ensures PropertyEquals(env, t, PropertyCopy(env, t, v), v)
    ensures PropertyHash(env, t, PropertyCopy(env, t, v), acc) == PropertyHash(env, t, v, acc)
  {
    PropertyEqualsIsEquality(env, t, PropertyCopy(env, t, v), v);
  }

  // ---------------------------------------------------------------------------
  // Generated objects

  /** The value of a property of a freshly constructed instance. */
  function DefaultValue(t: TypeShape): Value {
    match t
    case Dbl => Leaf(Number(0.0))
    case Bool => Leaf(Flag(false))
    case Int => Leaf(Integer(0))
    case DateTime => Leaf(Instant(0))
    case _ => Null
  }

  /** `Init` skips a null argument of these types, leaving the property as it was. */
  predicate CopiedOnlyWhenNonNull(t: TypeShape) {
    t.Uri? || t.ClassRef? || t.ListOf? || t.Dict?
  }

  /** The property value `Init` leaves behind, given the argument and the previous value. */
  function InitValue(env: Env, t: TypeShape, arg: Value, previous: Value): (r: Value)
    ensures r == if CopiedOnlyWhenNonNull(t) && arg.Null? then previous else arg
  {
    if CopiedOnlyWhenNonNull(t) && arg.Null? then previous else PropertyCopy(env, t, arg)
  }

  /** An instance of a generated class. */
  class GeneratedObject {
    const className: string
    const shapes: seq<TypeShape>
    var properties: seq<Value>

    predicate Valid()
      reads this
    {
      |properties| == |shapes|
    }

    /** The parameterless constructor: every property holds its default. */
    constructor (className: string, shapes: seq<TypeShape>)
      ensures this.className == className && this.shapes == shapes
      ensures properties == seq(|shapes|, i requires 0 <= i < |shapes| => DefaultValue(shapes[i]))
      ensures Valid()
    {
      this.className := className;
      this.shapes := shapes;
      properties := seq(|shapes|, i requires 0 <= i < |shapes| => DefaultValue(shapes[i]));
    }

    /** Stores deep copies of the arguments, property by property. */
    method Init(env: Env, args: seq<Value>)
      requires Valid() && |args| == |shapes|
      modifies this
      ensures Valid()
      ensures forall i | 0 <= i < |shapes| :: properties[i] == InitValue(env, shapes[i], args[i], old(properties[i]))
    {
      var i := 0;
      while i < |shapes|
        invariant 0 <= i <= |shapes| && |properties| == |shapes|
        invariant forall j | 0 <= j < i :: properties[j] == InitValue(env, shapes[j], args[j], old(properties)[j])
        invariant forall j | i <= j < |shapes| :: properties[j] == old(properties)[j]
      {
        if !(CopiedOnlyWhenNonNull(shapes[i]) && args[i].Null?) {
          var copy := CopyValue(env, shapes[i], args[i]);
          properties := properties[i := copy];
        }
        i := i + 1;
      }
    }

    /** The constructor taking one argument per property. */
    constructor FromValues(env: Env, className: string, shapes: seq<TypeShape>, args: seq<Value>)
      requires |args| == |shapes|
      ensures this.className == className && this.shapes == shapes && Valid()
      ensures forall i | 0 <= i < |shapes| ::
        properties[i] == if CopiedOnlyWhenNonNull(shapes[i]) && args[i].Null? then Null else args[i]
    {
      this.className := className;
      this.shapes := shapes;
      properties := seq(|shapes|, i requires 0 <= i < |shapes| => DefaultValue(shapes[i]));
      new;
      Init(env, args);
    }

    /** The copy constructor; a null `other` raises ArgumentNullException. */
    static method CopyOf(env: Env, other: GeneratedObject?) returns (r: Result<GeneratedObject, string>)
      requires other != null ==> other.Valid()
      ensures other == null ==> r == Failure("other")
      ensures other != null ==>
        && r.Success? && fresh(r.value) && r.value.Valid()
        && r.value.className == other.className && r.value.shapes == other.shapes
        && r.value.properties == other.properties
    {
      if other == null {
        return Failure("other");
      }
      var copy := new GeneratedObject.FromValues(env, other.className, other.shapes, other.properties);
      assert copy.properties == other.properties by {
        forall i | 0 <= i < |other.shapes| ensures copy.properties[i] == other.properties[i] {
        }
      }
      return Success(copy);
    }

    /** A deep copy of this instance. */
    method DeepClone(env: Env) returns (r: GeneratedObject)
      requires Valid()
      ensures fresh(r) && r.Valid() && r.className == className && r.shapes == shapes
      ensures r.properties == properties
    {
      var copy := CopyOf(env, this);
      r := copy.value;
    }

    /** `GetHashCode()`: seed 17, then each property in declaration order. */
    method GetHashCode(env: Env) returns (r: Int32)
      ensures r == ClassHash(env, shapes, properties)
    {
      r := HashFields(env, shapes, Instance(properties), Seed);
    }

    /**
     * `Equals(object other)`: false for null or an instance of another class, otherwise
     * the property-by-property comparison of `Equals(C other)`.
     */
    method Equals(env: Env, other: GeneratedObject?) returns (r: bool)
      ensures r <==> other != null && other.className == className && ClassEquals(env, shapes, properties, other.properties)
    {
      if other == null || other.className != className {
        return false;
      }
      r := EqualFields(env, shapes, Instance(properties), Instance(other.properties));
    }
  }
}
