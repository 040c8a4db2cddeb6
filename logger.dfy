/**
 * The log-level resolver of the error-reporting library's `createLogger`.
 *
 * `createLogger` picks the verbosity of the diagnostics logger by a fixed
 * precedence: the environment variable `GCLOUD_ERRORS_LOGLEVEL` if it is set,
 * otherwise the configuration's `logLevel` property if the configuration is an
 * object that has one, otherwise the default level `LEVELS[2]` ("warn").
 * The chosen index is looked up in the logging library's `LEVELS` table; an
 * index that names no usable entry falls back to the default. The only failure
 * is a `logLevel` that is present but neither a string nor a number.
 *
 * The environment is a snapshot of the one variable, the table and the
 * package name are parameters, and the logger that would be built from the
 * resolved options is not modelled: the result is those options.
 */
module Logger {

  datatype Option<+T> = None | Some(value: T)

  /** The `logLevel` property of a configuration object, as the type tests see it. */
  datatype LogLevelField =
    | Absent           // the object has no `logLevel` key
    | Num(n: int)      // a number (integral values only)
    | Str(s: string)   // a string
    | Other            // any other value, `undefined`, `null` and booleans included

  /** The configuration argument: an object (only `logLevel` matters) or anything else. */
  datatype Configuration = NotObject | Obj(logLevel: LogLevelField)

  /** The one error `createLogger` raises. */
  datatype Error = InvalidLogLevelType

  datatype Result<+T> = Ok(value: T) | Err(error: Error)

  /** The options handed to the logging library's `logger` factory. */
  datatype LoggerOptions = LoggerOptions(level: string, tag: string)

  /** Index of the default level, "warn". */
  const DEFAULT_INDEX: nat := 2

  const TWO_31: int := 0x8000_0000
  const TWO_32: int := 0x1_0000_0000

  /** The logging library's `LEVELS` table; the default index must exist. */
  type LevelTable = t: seq<string> | |t| > DEFAULT_INDEX witness ["", "", ""]

  /** 32-bit signed integers, the range of `~~`. */
  predicate IsInt32(n: int) { -TWO_31 <= n < TWO_31 }

  // ---------------------------------------------------------------------------
  // `~~` on strings: JavaScript's ToNumber followed by ToInt32
  // ---------------------------------------------------------------------------

  predicate IsDigit(c: char) { '0' <= c <= '9' }

  predicate AllDigits(s: string) { forall i :: 0 <= i < |s| ==> IsDigit(s[i]) }

  function DigitValue(c: char): nat
    requires IsDigit(c)
  {
    c as int - '0' as int
  }

  function DigitChar(d: nat): char
    requires d < 10
  {
    ('0' as int + d) as char
  }

  /** Value of a run of decimal digits, most significant digit first. */
  function DigitsValue(s: string): nat
    requires AllDigits(s)
  {
    if s == [] then 0 else DigitsValue(s[..|s| - 1]) * 10 + DigitValue(s[|s| - 1])
  }

  /** The part of a numeric string after its optional sign. */
  function Unsigned(s: string): string
  {
    if |s| > 0 && (s[0] == '-' || s[0] == '+') then s[1..] else s
  }

  /** Strings that ToNumber reads as a decimal integer: an optional sign, then at least one digit. */
  predicate IsDecimal(s: string)
  {
    |Unsigned(s)| > 0 && AllDigits(Unsigned(s))
  }

  function DecimalValue(s: string): int
    requires IsDecimal(s)
  {
    if s[0] == '-' then -(DigitsValue(Unsigned(s)) as int) else DigitsValue(Unsigned(s))
  }

  /** ToInt32: the unique 32-bit signed integer congruent to `n` modulo 2^32. */
  function ToInt32(n: int): (r: int)
    ensures IsInt32(r)
    ensures (n - r) % TWO_32 == 0
    ensures IsInt32(n) ==> r == n
  {
    var m := n % TWO_32;
    if m >= TWO_31 then m - TWO_32 else m
  }

  /** `~~s`: decimal-integer text gives its value wrapped to 32 bits, any other text gives 0. */
  function Coerce(s: string): (r: int)
    ensures IsInt32(r)
    ensures !IsDecimal(s) ==> r == 0
    ensures IsDecimal(s) && IsInt32(DecimalValue(s)) ==> r == DecimalValue(s)
    ensures IsDecimal(s) ==> (r - DecimalValue(s)) % TWO_32 == 0
  {
    if IsDecimal(s) then ToInt32(DecimalValue(s)) else 0
  }

  /** Decimal digits of a natural number, without leading zeros. */
  function Digits(n: nat): string
  {
    (if n < 10 then "" else Digits(n / 10)) + [DigitChar(n % 10)]
  }

  /**
   * JavaScript's `String(n)` on an integer of magnitude at most 2^53: the "stringified
   * decimal representation". (Beyond 2^53, `String` prints the shortest digits that
   * round back to the same double, padded with zeros; from 10^21 on, exponent form.)
   */
  function Stringify(n: int): string
  {
    if n < 0 then "-" + Digits(-n) else Digits(n)
  }

  lemma {:induction false} DigitsRoundTrip(n: nat)
    ensures |Digits(n)| > 0 && AllDigits(Digits(n))
    ensures DigitsValue(Digits(n)) == n
  {
    var s := Digits(n);
    if n >= 10 {
      DigitsRoundTrip(n / 10);
      assert s[..|s| - 1] == Digits(n / 10);
    } else {
      assert s[..|s| - 1] == "";
    }
  }

  /** Reading back the decimal text of any integer gives that integer, before the 32-bit wrap. */
  lemma {:induction false} StringifyRoundTrip(n: int)
    ensures IsDecimal(Stringify(n))
    ensures DecimalValue(Stringify(n)) == n
    ensures Coerce(Stringify(n)) == ToInt32(n)
  {
    var s := Stringify(n);
    if n < 0 {
      DigitsRoundTrip(-n);
      assert s[1..] == Digits(-n);
      assert Unsigned(s) == Digits(-n);
    } else {
      DigitsRoundTrip(n);
      assert IsDigit(s[0]);
      assert Unsigned(s) == Digits(n);
    }
    assert IsDecimal(s);
    assert DecimalValue(s) == n;
  }

  /** `~~` undoes `String` on every 32-bit integer. */
  lemma CoerceStringify(n: int)
    requires IsInt32(n)
    ensures Coerce(Stringify(n)) == n
  {
    StringifyRoundTrip(n);
  }

  // ---------------------------------------------------------------------------
  // Table lookup and the precedence rule
  // ---------------------------------------------------------------------------

  /** `LEVELS[i]` is kept by `|| DEFAULT_LEVEL` only when it exists and is not the falsy empty string. */
  predicate Usable(levels: LevelTable, i: int)
  {
    0 <= i < |levels| && levels[i] != ""
  }

  /** `LEVELS[i] || DEFAULT_LEVEL`. */
  function Lookup(levels: LevelTable, i: int): (level: string)
    ensures level in levels
    ensures Usable(levels, i) ==> level == levels[i]
    ensures !Usable(levels, i) ==> level == levels[DEFAULT_INDEX]
  {
    if Usable(levels, i) then levels[i] else levels[DEFAULT_INDEX]
  }

  /** The level `createLogger` chooses, or the error it throws. */
  function ResolveLevel(levels: LevelTable, env: Option<string>, config: Configuration): (r: Result<string>)
    ensures r.Ok? ==> r.value in levels
    ensures r.Err? <==> env.None? && config.Obj? && config.logLevel.Other?
  {
    if env.Some? then Ok(Lookup(levels, Coerce(env.value)))
    else match config
      case Obj(Str(s)) => Ok(Lookup(levels, Coerce(s)))
      case Obj(Num(n)) => Ok(Lookup(levels, n))
      case Obj(Other) => Err(InvalidLogLevelType)
      case _ => Ok(levels[DEFAULT_INDEX])
  }

  /** `createLogger` up to the factory call: the options `{level, tag}` or the type error. */
  function CreateLogger(levels: LevelTable, tag: string, env: Option<string>, config: Configuration)
    : (r: Result<LoggerOptions>)
    ensures r.Ok? ==> r.value.level in levels && r.value.tag == tag
    ensures r.Err? <==> env.None? && config.Obj? && config.logLevel.Other?
  {
    match ResolveLevel(levels, env, config)
    case Ok(level) => Ok(LoggerOptions(level, tag))
    case Err(e) => Err(e)
  }

  // ---------------------------------------------------------------------------
  // Properties of the precedence rule
  // ---------------------------------------------------------------------------

  /** A set environment variable decides alone: the configuration is never read, not even a badly typed `logLevel`. */
  lemma EnvironmentWins(levels: LevelTable, tag: string, e: string, c1: Configuration, c2: Configuration)
    ensures CreateLogger(levels, tag, Some(e), c1) == CreateLogger(levels, tag, Some(e), c2)
    ensures CreateLogger(levels, tag, Some(e), c1) == Ok(LoggerOptions(Lookup(levels, Coerce(e)), tag))
  {
  }

  /** An environment value that is the decimal text of a 32-bit index `n` selects `LEVELS[n]`, or the default. */
  lemma EnvironmentDecimal(levels: LevelTable, tag: string, n: int, config: Configuration)
    requires IsInt32(n)
    ensures Usable(levels, n) ==> CreateLogger(levels, tag, Some(Stringify(n)), config) == Ok(LoggerOptions(levels[n], tag))
    ensures !Usable(levels, n) ==> CreateLogger(levels, tag, Some(Stringify(n)), config) == Ok(LoggerOptions(levels[DEFAULT_INDEX], tag))
  {
    CoerceStringify(n);
  }

  /** Without the environment variable, a non-object configuration or one lacking `logLevel` gives "warn". */
  lemma DefaultWithoutSource(levels: LevelTable, tag: string, config: Configuration)
    requires config.NotObject? || config.logLevel.Absent?
    ensures CreateLogger(levels, tag, None, config) == Ok(LoggerOptions(levels[DEFAULT_INDEX], tag))
  {
  }

  /** A numeric `logLevel` selects its entry when usable; a negative, out-of-range or empty one falls back without an error. */
  lemma NumericLevel(levels: LevelTable, tag: string, n: int)
    ensures Usable(levels, n) ==> CreateLogger(levels, tag, None, Obj(Num(n))) == Ok(LoggerOptions(levels[n], tag))
    ensures !Usable(levels, n) ==> CreateLogger(levels, tag, None, Obj(Num(n))) == Ok(LoggerOptions(levels[DEFAULT_INDEX], tag))
  {
  }

  /** A decimal string `logLevel` whose value fits 32 bits behaves exactly like that number. */
  lemma StringLevelMatchesNumber(levels: LevelTable, tag: string, s: string)
    requires IsDecimal(s) && IsInt32(DecimalValue(s))
    ensures CreateLogger(levels, tag, None, Obj(Str(s))) == CreateLogger(levels, tag, None, Obj(Num(DecimalValue(s))))
  {
  }

  /** The stringified form of a 32-bit `logLevel` behaves exactly like the number itself. */
  lemma StringifiedLevelMatchesNumber(levels: LevelTable, tag: string, n: int)
    requires IsInt32(n)
    ensures CreateLogger(levels, tag, None, Obj(Str(Stringify(n)))) == CreateLogger(levels, tag, None, Obj(Num(n)))
  {
    StringifyRoundTrip(n);
    StringLevelMatchesNumber(levels, tag, Stringify(n));
  }

  /** Beyond 32 bits the string form wraps: it behaves like the number `ToInt32(n)`, not like `n`. */
  lemma StringifiedLevelWraps(levels: LevelTable, tag: string, n: int)
    ensures CreateLogger(levels, tag, None, Obj(Str(Stringify(n)))) == CreateLogger(levels, tag, None, Obj(Num(ToInt32(n))))
  {
    StringifyRoundTrip(n);
  }

  /** "4294967296" as a string selects `LEVELS[0]`, while the number 4294967296 falls back to the default. */
  lemma StringAndNumberDiverge(levels: LevelTable, tag: string)
    requires |levels| <= TWO_32 && levels[0] != "" && levels[0] != levels[DEFAULT_INDEX]
    ensures CreateLogger(levels, tag, None, Obj(Str(Stringify(TWO_32)))) == Ok(LoggerOptions(levels[0], tag))
    ensures CreateLogger(levels, tag, None, Obj(Num(TWO_32))) == Ok(LoggerOptions(levels[DEFAULT_INDEX], tag))
    ensures CreateLogger(levels, tag, None, Obj(Str(Stringify(TWO_32)))) != CreateLogger(levels, tag, None, Obj(Num(TWO_32)))
  {
    StringifiedLevelWraps(levels, tag, TWO_32);
  }

  /**
   * Text that is not an optional sign followed by digits, from either source, coerces to
   * index 0: `LEVELS[0]` if usable, else the default; never an error.
   */
  lemma NonNumericTextIsIndexZero(levels: LevelTable, tag: string, s: string, config: Configuration)
    requires !IsDecimal(s)
    ensures Usable(levels, 0) ==> CreateLogger(levels, tag, Some(s), config) == Ok(LoggerOptions(levels[0], tag))
    ensures Usable(levels, 0) ==> CreateLogger(levels, tag, None, Obj(Str(s))) == Ok(LoggerOptions(levels[0], tag))
    ensures !Usable(levels, 0) ==> CreateLogger(levels, tag, Some(s), config) == Ok(LoggerOptions(levels[DEFAULT_INDEX], tag))
    ensures !Usable(levels, 0) ==> CreateLogger(levels, tag, None, Obj(Str(s))) == Ok(LoggerOptions(levels[DEFAULT_INDEX], tag))
  {
  }

  /**
   * Text with no ASCII digit, from either source, selects `LEVELS[0]` if usable, else the
   * default. This holds of JavaScript's `~~` too: ToNumber gives 0, an infinity or NaN on
   * such text, and ToInt32 maps each of them to 0.
   */
  lemma DigitFreeTextIsIndexZero(levels: LevelTable, tag: string, s: string, config: Configuration)
    requires forall i :: 0 <= i < |s| ==> !IsDigit(s[i])
    ensures Usable(levels, 0) ==> CreateLogger(levels, tag, Some(s), config) == Ok(LoggerOptions(levels[0], tag))
    ensures Usable(levels, 0) ==> CreateLogger(levels, tag, None, Obj(Str(s))) == Ok(LoggerOptions(levels[0], tag))
    ensures !Usable(levels, 0) ==> CreateLogger(levels, tag, Some(s), config) == Ok(LoggerOptions(levels[DEFAULT_INDEX], tag))
    ensures !Usable(levels, 0) ==> CreateLogger(levels, tag, None, Obj(Str(s))) == Ok(LoggerOptions(levels[DEFAULT_INDEX], tag))
  {
    if |s| > 1 {
      assert !IsDigit(s[1]) && Unsigned(s)[0] in {s[0], s[1]};
    }
    NonNumericTextIsIndexZero(levels, tag, s, config);
  }
}
