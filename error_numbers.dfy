/**
 * The error numbers reported by the schema reader and the instance validator. Their
 * integer values are part of the public contract and never change.
 */
module ErrorNumbers {
  import Wrappers

  datatype ErrorNumber =
    // Not an error.
    | None
    // Errors in a schema document.
    | NotAString
    | InvalidAdditionalPropertiesType
    // Errors in an instance document.
    | WrongType
    | RequiredPropertyMissing
    | TooFewArrayItems
    | TooManyArrayItems
    | AdditionalPropertiesProhibited
    | ValueTooLarge
    | ValueTooLargeExclusive
    | ValueTooSmall
    | ValueTooSmallExclusive
    | TooManyProperties
    | TooFewProperties
    | NotAMultiple
    | StringTooLong
    | StringTooShort
    | StringDoesNotMatchPattern
    | NotAllOf
    | NotAnyOf
    | NotOneOf
    | InvalidEnumValue

  /** The integer value of each error number. */
  function Code(e: ErrorNumber): (r: int)
    ensures 0 <= r <= 1019
    ensures r == 0 <==> e == None
  {
    match e
    case None => 0
    case NotAString => 1
    case InvalidAdditionalPropertiesType => 2
    case WrongType => 1001
    case RequiredPropertyMissing => 1002
    case TooFewArrayItems => 1003
    case TooManyArrayItems => 1004
    case AdditionalPropertiesProhibited => 1005
    case ValueTooLarge => 1006
    case ValueTooLargeExclusive => 1007
    case ValueTooSmall => 1008
    case ValueTooSmallExclusive => 1009
    case TooManyProperties => 1010
    case TooFewProperties => 1011
    case NotAMultiple => 1012
    case StringTooLong => 1013
    case StringTooShort => 1014
    case StringDoesNotMatchPattern => 1015
    case NotAllOf => 1016
    case NotAnyOf => 1017
    case NotOneOf => 1018
    case InvalidEnumValue => 1019
  }

  /** A value the enumeration defines. */
  predicate IsDefinedCode(n: int) {
    0 <= n <= 2 || 1001 <= n <= 1019
  }

  /** The error number with a given integer value, if there is one. */
  function FromCode(n: int): (r: Wrappers.Option<ErrorNumber>)
    ensures r.Some? <==> IsDefinedCode(n)
    ensures r.Some? ==> Code(r.value) == n
  {
    match n
    case 0 => Wrappers.Some(None)
    case 1 => Wrappers.Some(NotAString)
    case 2 => Wrappers.Some(InvalidAdditionalPropertiesType)
    case 1001 => Wrappers.Some(WrongType)
    case 1002 => Wrappers.Some(RequiredPropertyMissing)
    case 1003 => Wrappers.Some(TooFewArrayItems)
    case 1004 => Wrappers.Some(TooManyArrayItems)
    case 1005 => Wrappers.Some(AdditionalPropertiesProhibited)
    case 1006 => Wrappers.Some(ValueTooLarge)
    case 1007 => Wrappers.Some(ValueTooLargeExclusive)
    case 1008 => Wrappers.Some(ValueTooSmall)
    case 1009 => Wrappers.Some(ValueTooSmallExclusive)
    case 1010 => Wrappers.Some(TooManyProperties)
    case 1011 => Wrappers.Some(TooFewProperties)
    case 1012 => Wrappers.Some(NotAMultiple)
    case 1013 => Wrappers.Some(StringTooLong)
    case 1014 => Wrappers.Some(StringTooShort)
    case 1015 => Wrappers.Some(StringDoesNotMatchPattern)
    case 1016 => Wrappers.Some(NotAllOf)
    case 1017 => Wrappers.Some(NotAnyOf)
    case 1018 => Wrappers.Some(NotOneOf)
    case 1019 => Wrappers.Some(InvalidEnumValue)
    case _ => Wrappers.None
  }

  /** Every error number is recovered from its value. */
  lemma FromCodeOfCode(e: ErrorNumber)
    ensures FromCode(Code(e)) == Wrappers.Some(e)
  {
  }

  /** No two error numbers share a value. */
  lemma CodesAreDistinct(e1: ErrorNumber, e2: ErrorNumber)
    ensures Code(e1) == Code(e2) <==> e1 == e2
  {
    FromCodeOfCode(e1);
    FromCodeOfCode(e2);
  }

  /** The errors of a schema document. */
  predicate IsSchemaError(e: ErrorNumber) {
    e == NotAString || e == InvalidAdditionalPropertiesType
  }

  /** The errors of an instance document. */
  predicate IsInstanceError(e: ErrorNumber) {
    !e.None? && !IsSchemaError(e)
  }

  /** Schema-document errors lie below 1000: they are the values 1 and 2. */
  lemma SchemaErrorsBelow1000(e: ErrorNumber)
    ensures IsSchemaError(e) ==> 0 < Code(e) < 1000
    ensures IsSchemaError(e) <==> Code(e) == 1 || Code(e) == 2
  {
  }

  /** Instance-document errors are exactly the values 1001 to 1019, every one of them used. */
  lemma InstanceErrorsAreContiguous(e: ErrorNumber, n: int)
    ensures IsInstanceError(e) <==> 1001 <= Code(e) <= 1019
    ensures 1001 <= n <= 1019 ==> FromCode(n).Some? && IsInstanceError(FromCode(n).value)
  {
  }
}
