/**
 * Construction of validation results: the rule id of an error number (the text "JS"
 * followed by the number as four decimal digits) and the result object that carries
 * the rule, the location of the offending token and the message arguments.
 */
module ResultFactory {
  import Wrappers
  import ErrorNumbers

  // ---------------------------------------------------------------------------
  // Decimal text
  // ---------------------------------------------------------------------------

  predicate IsDigit(c: char) {
    '0' <= c <= '9'
  }

  predicate AllDigits(s: string) {
    forall i :: 0 <= i < |s| ==> IsDigit(s[i])
  }

  /** The character of one decimal digit. */
  function DigitChar(d: int): (c: char)
    requires 0 <= d < 10
    ensures IsDigit(c)
    ensures c as int - '0' as int == d
  {
    ('0' as int + d) as char
  }

  /** The value of one digit character. */
  function DigitValue(c: char): (d: int)
    requires IsDigit(c)
    ensures 0 <= d < 10
    ensures DigitChar(d) == c
  {
    c as int - '0' as int
  }

  /** The decimal digits of `n`, most significant first, with no leading zero. */
  function Digits(n: nat): (s: string)
    ensures 1 <= |s|
    ensures AllDigits(s)
    ensures |s| > 1 ==> s[0] != '0'
    decreases n
  {
    if n < 10 then [DigitChar(n)] else Digits(n / 10) + [DigitChar(n % 10)]
  }

  /** The number a string of digits denotes, read most significant first. */
  function ParseDigits(s: string): (n: nat)
    requires AllDigits(s)
    decreases |s|
  {
    if |s| == 0 then 0 else 10 * ParseDigits(s[..|s| - 1]) + DigitValue(s[|s| - 1])
  }

  /** Reading the digits of `n` gives `n` back. */
  lemma {:induction false} ParseDigitsOfDigits(n: nat)
    ensures ParseDigits(Digits(n)) == n
    decreases n
  {
    if n >= 10 {
      var s := Digits(n);
      assert s[..|s| - 1] == Digits(n / 10);
      ParseDigitsOfDigits(n / 10);
    }
  }

  /** A number below 10^k has at most k digits. */
  lemma {:induction false} DigitsLength(n: nat, k: nat, bound: nat)
    requires 1 <= k && bound == Power10(k) && n < bound
    ensures |Digits(n)| <= k
    decreases k
  {
    if n >= 10 {
      assert k > 1;
      DigitsLength(n / 10, k - 1, Power10(k - 1));
    }
  }

  function Power10(k: nat): (p: nat)
    ensures p >= 1
  {
    if k == 0 then 1 else 10 * Power10(k - 1)
  }

  /** Leading zeros do not change the number a string of digits denotes. */
  lemma {:induction false} ParseDigitsIgnoresLeadingZeros(zeros: string, s: string)
    requires forall i :: 0 <= i < |zeros| ==> zeros[i] == '0'
    requires AllDigits(s)
    ensures AllDigits(zeros + s)
    ensures ParseDigits(zeros + s) == ParseDigits(s)
    decreases |s|
  {
    var t := zeros + s;
    assert AllDigits(t) by {
      forall i | 0 <= i < |t| ensures IsDigit(t[i]) {
        if i < |zeros| { assert t[i] == zeros[i]; } else { assert t[i] == s[i - |zeros|]; }
      }
    }
    if |s| == 0 {
      assert t == zeros;
      AllZerosParseToZero(zeros);
    } else {
      var s' := s[..|s| - 1];
      assert t[..|t| - 1] == zeros + s';
      ParseDigitsIgnoresLeadingZeros(zeros, s');
    }
  }

  lemma {:induction false} AllZerosParseToZero(zeros: string)
    requires forall i :: 0 <= i < |zeros| ==> zeros[i] == '0'
    ensures AllDigits(zeros)
    ensures ParseDigits(zeros) == 0
    decreases |zeros|
  {
    if |zeros| > 0 {
      AllZerosParseToZero(zeros[..|zeros| - 1]);
    }
  }

  /** `s` left-padded with zeros to at least `width` characters. */
  function PadWithZeros(s: string, width: nat): (r: string)
    ensures |r| == if |s| < width then width else |s|
    ensures r[|r| - |s|..] == s
    ensures forall i :: 0 <= i < |r| - |s| ==> r[i] == '0'
  {
    if |s| < width then seq(width - |s|, _ => '0') + s else s
  }

  /**
   * The .NET "D4" format of an integer: at least four digits, padded with zeros, and a
   * minus sign before a negative number.
   */
  function FormatD4(n: int): (r: string)
    ensures |r| >= 4
    ensures n < 0 ==> r[0] == '-'
  {
    if n < 0 then "-" + PadWithZeros(Digits(-n), 4) else PadWithZeros(Digits(n), 4)
  }

  /** The "D4" text of any number is its sign, then digits that read back as its magnitude. */
  lemma FormatD4ReadsBack(n: int)
    ensures n >= 0 ==> AllDigits(FormatD4(n)) && ParseDigits(FormatD4(n)) == n
    ensures n < 0 ==> AllDigits(FormatD4(n)[1..]) && ParseDigits(FormatD4(n)[1..]) == -n
  {
    var magnitude: nat := if n < 0 then -n else n;
    var d := Digits(magnitude);
    var padded := PadWithZeros(d, 4);
    assert padded == padded[..|padded| - |d|] + d;
    ParseDigitsIgnoresLeadingZeros(padded[..|padded| - |d|], d);
    ParseDigitsOfDigits(magnitude);
    if n < 0 {
      assert FormatD4(n)[1..] == padded;
    }
  }

  /** A number from 0 to 9999 formats as exactly four digits that read back as itself. */
  lemma FormatD4OfSmallNumber(n: int)
    requires 0 <= n < 10000
    ensures |FormatD4(n)| == 4
    ensures AllDigits(FormatD4(n))
    ensures ParseDigits(FormatD4(n)) == n
  {
    var d := Digits(n);
    assert Power10(4) == 10000;
    DigitsLength(n, 4, 10000);
    var r := FormatD4(n);
    var zeros := r[..|r| - |d|];
    assert r == zeros + d;
    ParseDigitsIgnoresLeadingZeros(zeros, d);
    ParseDigitsOfDigits(n);
  }

  /** A negative number formats with a sign, so it is never taken for a code. */
  lemma FormatD4OfNegativeNumber(n: int)
    requires n < 0
    ensures |FormatD4(n)| >= 5
    ensures FormatD4(n)[0] == '-'
    ensures !AllDigits(FormatD4(n))
  {
    assert !IsDigit(FormatD4(n)[0]);
  }

  // ---------------------------------------------------------------------------
  // Rule ids
  // ---------------------------------------------------------------------------

  const RuleIdPrefix: string := "JS"

  /** The rule id of an error number: "JS" followed by its value in the "D4" format. */
  function RuleIdFromErrorNumber(e: ErrorNumbers.ErrorNumber): (r: string)
    ensures |r| == 6
    ensures r[..2] == RuleIdPrefix
    ensures AllDigits(r[2..])
    ensures ParseDigits(r[2..]) == ErrorNumbers.Code(e)
  {
    FormatD4OfSmallNumber(ErrorNumbers.Code(e));
    var r := RuleIdPrefix + FormatD4(ErrorNumbers.Code(e));
    assert r[2..] == FormatD4(ErrorNumbers.Code(e));
    r
  }

  /** The error number a rule id names, if it names one. */
  function ParseRuleId(s: string): (r: Wrappers.Option<ErrorNumbers.ErrorNumber>)
    ensures r.Some? ==> |s| == 6 && s[..2] == RuleIdPrefix && AllDigits(s[2..])
  {
    if |s| == 6 && s[..2] == RuleIdPrefix && AllDigits(s[2..]) then ErrorNumbers.FromCode(ParseDigits(s[2..]))
    else Wrappers.None
  }

  /** Reading a rule id gives back its error number. */
  lemma ParseRuleIdOfRuleId(e: ErrorNumbers.ErrorNumber)
    ensures ParseRuleId(RuleIdFromErrorNumber(e)) == Wrappers.Some(e)
  {
    ErrorNumbers.FromCodeOfCode(e);
  }

  /** Distinct error numbers have distinct rule ids. */
  lemma RuleIdsAreDistinct(e1: ErrorNumbers.ErrorNumber, e2: ErrorNumbers.ErrorNumber)
    ensures RuleIdFromErrorNumber(e1) == RuleIdFromErrorNumber(e2) <==> e1 == e2
  {
    ParseRuleIdOfRuleId(e1);
    ParseRuleIdOfRuleId(e2);
  }

  /** The rule id of a schema error. */
  lemma NotAStringRuleId()
    ensures RuleIdFromErrorNumber(ErrorNumbers.NotAString) == "JS0001"
  {
    assert Digits(1) == "1";
    assert PadWithZeros("1", 4) == "0001";
  }

  /** The rule id of the first instance error. */
  lemma WrongTypeRuleId()
    ensures RuleIdFromErrorNumber(ErrorNumbers.WrongType) == "JS1001"
  {
    assert Digits(10) == "10";
    assert Digits(100) == "100";
    assert Digits(1001) == "1001";
    assert PadWithZeros("1001", 4) == "1001";
    assert FormatD4(1001) == PadWithZeros(Digits(1001), 4);
    assert RuleIdFromErrorNumber(ErrorNumbers.WrongType) == RuleIdPrefix + FormatD4(1001);
  }

  /** The rule id of the last instance error. */
  lemma InvalidEnumValueRuleId()
    ensures RuleIdFromErrorNumber(ErrorNumbers.InvalidEnumValue) == "JS1019"
  {
    assert Digits(10) == "10";
    assert Digits(101) == "101";
    assert Digits(1019) == "1019";
    assert PadWithZeros("1019", 4) == "1019";
    assert FormatD4(1019) == PadWithZeros(Digits(1019), 4);
    assert RuleIdFromErrorNumber(ErrorNumbers.InvalidEnumValue) == RuleIdPrefix + FormatD4(1019);
  }

  // ---------------------------------------------------------------------------
  // Results
  // ---------------------------------------------------------------------------

  /** The severity of a rule. */
  datatype FailureLevel = None | Note | Warning | Error

  /** The rule an error number is reported under: its id and its default level. */
  datatype Rule = Rule(id: string, defaultLevel: FailureLevel)

  /** A line and a column in the instance document. */
  datatype Region = Region(startLine: int, startColumn: int)

  datatype Location = Location(region: Region)

  /** The message id every rule uses for its one message. */
  const DefaultRuleMessageId: string := "default"

  /** The property that carries the JSON path of the offending token. */
  const JsonPathProperty: string := "jsonPath"

  /** The message arguments of a result: the JSON path, then the text of each argument. */
  function MessageArguments<T>(jsonPath: string, args: seq<T>, toText: T -> string): (r: seq<string>)
    ensures |r| == 1 + |args|
    ensures r[0] == jsonPath
    ensures forall i :: 0 <= i < |args| ==> r[i + 1] == toText(args[i])
  {
    [jsonPath] + seq(|args|, i requires 0 <= i < |args| => toText(args[i]))
  }

  /** Adding arguments at the end adds their texts at the end. */
  lemma MessageArgumentsAppend<T>(jsonPath: string, args: seq<T>, more: seq<T>, toText: T -> string)
    ensures MessageArguments(jsonPath, args + more, toText)
         == MessageArguments(jsonPath, args, toText) + MessageArguments(jsonPath, more, toText)[1..]
  {
    var l := MessageArguments(jsonPath, args + more, toText);
    var r := MessageArguments(jsonPath, args, toText) + MessageArguments(jsonPath, more, toText)[1..];
    assert |l| == |r|;
    forall i | 0 <= i < |l| ensures l[i] == r[i] {
      if 0 < i <= |args| {
        assert (args + more)[i - 1] == args[i - 1];
      } else if i > |args| {
        assert (args + more)[i - 1] == more[i - 1 - |args|];
      }
    }
  }

  /** A validation result. */
  class Result {
    var ruleId: string
    var level: FailureLevel
    var locations: seq<Location>
    var messageArguments: seq<string>
    var ruleMessageId: string
    var properties: map<string, string>

    constructor (ruleId: string, level: FailureLevel, locations: seq<Location>,
                 messageArguments: seq<string>, ruleMessageId: string)
      ensures this.ruleId == ruleId && this.level == level && this.locations == locations
      ensures this.messageArguments == messageArguments && this.ruleMessageId == ruleMessageId
      ensures properties == map[]
    {
      this.ruleId := ruleId;
      this.level := level;
      this.locations := locations;
      this.messageArguments := messageArguments;
      this.ruleMessageId := ruleMessageId;
      properties := map[];
    }

    /** Sets one property of the result, leaving the others and every other field alone. */
    method SetProperty(name: string, value: string)
      modifies this
      ensures properties == old(properties)[name := value]
      ensures ruleId == old(ruleId) && level == old(level) && locations == old(locations)
      ensures messageArguments == old(messageArguments) && ruleMessageId == old(ruleMessageId)
    {
      properties := properties[name := value];
    }
  }

  /** Builds the message arguments in a list that is extended one text at a time. */
  method BuildMessageArguments<T>(jsonPath: string, args: seq<T>, toText: T -> string)
    returns (r: seq<string>)
    ensures r == MessageArguments(jsonPath, args, toText)
  {
    r := [jsonPath];
    var i := 0;
    while i < |args|
      invariant 0 <= i <= |args|
      invariant r == MessageArguments(jsonPath, args[..i], toText)
    {
      assert args[..i + 1] == args[..i] + [args[i]];
      MessageArgumentsAppend(jsonPath, args[..i], [args[i]], toText);
      r := r + [toText(args[i])];
      i := i + 1;
    }
    assert args[..i] == args;
  }

  /**
   * The result reporting `errorNumber` at a line and column of the instance document,
   * under the rule `ruleOf` gives for it; `toText` renders each argument.
   */
  method CreateResult<T>(startLine: int, startColumn: int, jsonPath: string,
                         errorNumber: ErrorNumbers.ErrorNumber, args: seq<T>,
                         ruleOf: ErrorNumbers.ErrorNumber -> Rule, toText: T -> string)
    returns (result: Result)
    ensures fresh(result)
    ensures result.ruleId == ruleOf(errorNumber).id
    ensures result.level == ruleOf(errorNumber).defaultLevel
    ensures result.locations == [Location(Region(startLine, startColumn))]
    ensures result.messageArguments == MessageArguments(jsonPath, args, toText)
    ensures result.ruleMessageId == DefaultRuleMessageId
    ensures result.properties == map[JsonPathProperty := jsonPath]
  {
    var rule := ruleOf(errorNumber);
    var messageArguments := BuildMessageArguments(jsonPath, args, toText);
    result := new Result(rule.id, rule.defaultLevel, [Location(Region(startLine, startColumn))],
                         messageArguments, DefaultRuleMessageId);
    result.SetProperty(JsonPathProperty, jsonPath);
  }
}
