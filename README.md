# Log-level resolver of `createLogger`

This project models the level-selection logic of `createLogger` in the error-reporting
library (`src/logger.ts`). The function decides the verbosity of the library's
diagnostics logger. Highest priority first:

1. the environment variable `GCLOUD_ERRORS_LOGLEVEL`, when the key is present;
2. otherwise the configuration's `logLevel` property, when the configuration is an
   object that has that key;
3. otherwise the default index 2 ("warn").

The chosen index is looked up in the logging library's `LEVELS` table. If that lookup
gives nothing or a falsy entry, `|| DEFAULT_LEVEL` falls back to `LEVELS[2]`. The
function raises an error in one case only: a `logLevel` that is present but is neither
a string nor a number.

Everything is in `logger.dfy`, module `Logger`. It is pure: datatypes, functions and
lemmas.

- The configuration is `NotObject | Obj(LogLevelField)`, where the field is
  `Absent | Num(int) | Str(string) | Other`. This replaces the `is.object`, `lodash.has`,
  `is.string` and `is.number` tests.
- The environment is an `Option<string>` snapshot of the one variable.
- `LEVELS` is a parameter: any `seq<string>` with at least three entries. The table
  belongs to the logging library, so its contents are not fixed here.
- An entry is kept by `||` when it exists and is not the empty string. The empty string
  is the only falsy string.
- The package name is the `tag` parameter.
- The result is `Ok(LoggerOptions(level, tag))`, the options the logger factory would
  receive, or `Err(InvalidLogLevelType)`.
- JavaScript's `~~s` on a string is `Coerce`. It applies ToNumber and then ToInt32.
  Text of the form optional sign, then one or more decimal digits, gives its value
  wrapped to 32 bits. Any other text gives 0.
- `~~` does not keep a leading number and drop a non-numeric suffix. ToNumber turns
  "12abc" into NaN, and ToInt32 turns NaN into 0, so "12abc" coerces to 0.
- `Stringify` is JavaScript's `String(n)` on integers whose magnitude is at most 2^53.
  It is the "stringified decimal representation" that the doc comment of `createLogger`
  says `logLevel` may hold, and it is the inverse against which `Coerce` is proved.
- The doc comment of `createLogger` says that a valid `logLevel` is a number, or decimal
  text, from 1 through 5. It also says that input which is not valid gives WARN. The code
  differs from that in at least these cases:
  - Text that is not a number coerces to index 0 and selects `LEVELS[0]`
    (`NonNumericTextIsIndexZero`, `DigitFreeTextIsIndexZero`).
  - The number 0, and the text `"0"`, are outside 1 through 5. Yet they select
    `LEVELS[0]` when that entry is non-empty (`NumericLevel`, `StringLevelMatchesNumber`).
  - Decimal text outside 32 bits can wrap into the table. `"4294967297"` selects
    `LEVELS[1]`, and `"4294967296"` selects `LEVELS[0]`, when those entries are non-empty (`StringifiedLevelWraps`,
    `StringAndNumberDiverge`).
  - A `logLevel` of another type throws (`CreateLogger`).

## Model

| member | source | states |
|---|---|---|
| `Logger.CreateLogger` | src/logger.ts:45-69 | On success the level is an entry of `LEVELS` and the tag is the package name, unchanged. The call fails exactly when the environment variable is absent and the configuration is an object whose `logLevel` is present but neither a string nor a number. That failure is `InvalidLogLevelType`, the only constructor of `Error`. |
| `Logger.ResolveLevel` | src/logger.ts:47-68 | The chosen level is always an entry of the table. The type error is the only failure, and it happens in exactly the case above. |
| `Logger.Lookup` | src/logger.ts:52 | `LEVELS[i] \|\| DEFAULT_LEVEL` is an entry of the table. It is `LEVELS[i]` when that entry exists and is non-empty. Otherwise it is the default entry `LEVELS[2]`. |
| `Logger.ToInt32` | src/logger.ts:52 | The 32-bit step of `~~`. The result lies in the signed 32-bit range and is congruent to the input modulo 2^32. It is the input itself when the input already fits. |
| `Logger.Coerce` | src/logger.ts:59 | `~~s` is a 32-bit integer. It is 0 on every string that is not decimal-integer text. On any decimal text, it is congruent to the text's value modulo 2^32, so it is that value wrapped to 32 bits. On decimal text whose value fits 32 bits, it is that value. |
| `Logger.DigitsRoundTrip` | src/logger.ts:39-41 | Reading back the digits of any natural number gives that number. |
| `Logger.StringifyRoundTrip` | src/logger.ts:39-41 | The decimal text of any integer is decimal-integer text whose value is the integer. `~~` of it is the integer wrapped to 32 bits. |
| `Logger.CoerceStringify` | src/logger.ts:39-41 | `~~String(n) == n` for every 32-bit integer `n`. |
| `Logger.EnvironmentWins` | src/logger.ts:49-53 | When the variable is present, the result depends only on its value. It is `LEVELS[~~value]` if that entry is usable, else the default. The configuration is not read, so a badly typed `logLevel` raises nothing. |
| `Logger.EnvironmentDecimal` | src/logger.ts:49-52 | An environment value that is the decimal text of a 32-bit `n` selects `LEVELS[n]` when that entry is usable, else the default. |
| `Logger.DefaultWithoutSource` | src/logger.ts:46-48 | With no environment variable, a non-object configuration or one without `logLevel` gives the default `LEVELS[2]`. |
| `Logger.NumericLevel` | src/logger.ts:60-61 | A numeric `logLevel` `n` gives `LEVELS[n]` when that entry is usable. A negative or out-of-range `n`, or an empty entry, gives the default, with no error. |
| `Logger.StringLevelMatchesNumber` | src/logger.ts:57-61 | A decimal-string `logLevel` whose value `n` fits 32 bits gives the same result as the numeric `logLevel` `n`. |
| `Logger.StringifiedLevelMatchesNumber` | src/logger.ts:57-61 | `{logLevel: String(n)}` and `{logLevel: n}` give the same result for every 32-bit `n`. |
| `Logger.StringifiedLevelWraps` | src/logger.ts:59 | For any integer `n`, the decimal text of `n` as a `logLevel` behaves like the number `ToInt32(n)`. That text is `String(n)` when the magnitude of `n` is at most 2^53. Beyond that, ToNumber(String(n)) is still `n` for every integer-valued double `n`, so `~~String(n)` is `ToInt32(n)` in JavaScript as well. |
| `Logger.StringAndNumberDiverge` | src/logger.ts:59-61 | Take a table whose entry 0 is usable and differs from entry 2. Then `"4294967296"` selects `LEVELS[0]`, while the number 4294967296 falls back to the default. So the string form and the number form differ outside 32 bits. The requirement `\|LEVELS\| <= 2^32` holds for every JavaScript array, whose length is below 2^32. It is why the number 4294967296 names no entry. |
| `Logger.NonNumericTextIsIndexZero` | src/logger.ts:52-59 | In the model, any text that is not an optional sign followed by digits coerces to index 0. This holds whether the text comes from the environment or from a string `logLevel`. The result is `LEVELS[0]` if that entry is usable, else the default. It is never an error. JavaScript agrees except on the forms listed under `Logger.Coerce` in "Left out". |
| `Logger.DigitFreeTextIsIndexZero` | src/logger.ts:52-59 | Text with no ASCII digit, whether from the environment or from a string `logLevel`, selects `LEVELS[0]` if that entry is usable, else the default. It is never an error. This matches JavaScript, where ToNumber gives 0, an infinity or NaN on such text, and ToInt32 maps each of them to 0. |

## Left out

- The `logger({...})` call and the logging library behind it (src/logger.ts:23, 69). The model stops at the `{level, tag}` options.
- Reading `process.env` and loading `package.json` (src/logger.ts:24, 49) are I/O. They are parameters here: an `Option<string>` snapshot of `GCLOUD_ERRORS_LOGLEVEL` and a `tag` string.
- The exact behaviour of `lodash.has` and of the `is` type tests (src/logger.ts:18-22). Their verdict is the `Configuration` / `LogLevelField` constructor the caller supplies. A present key holding `undefined`, `null`, a boolean or an object is `Other`.
- Logger.Coerce: ToNumber's other accepted forms are not modelled. These are surrounding whitespace, hexadecimal/octal/binary prefixes, exponents and fractions. JavaScript reads such text as a number, but the model coerces it to 0.
- Logger.Coerce: in JavaScript, decimal text whose value exceeds 2^53 in magnitude is rounded to a double before ToInt32 is applied. Text beyond the double range becomes `Infinity`, and `~~` turns that into 0. The model wraps the exact value in both cases.
- Logger.Stringify: `Stringify` always writes the exact digits, so it is `String(n)` only up to 2^53 in magnitude. Between 2^53 and 10^21, JavaScript's `String(n)` gives the shortest digits that round back to the same double, padded with zeros (`String(2**64)` is `"18446744073709552000"`). From 10^21 on it uses exponent form (`"1e+21"`). The lemmas about `Stringify` still describe the program: ToNumber(String(x)) == x for every double `x`, so `~~String(x)` is `ToInt32(x)` there too.
- Logger.NumericLevel: numeric `logLevel` values are integers. Fractional values, NaN and infinities are floating point and are not modelled.
- The contents of the logging library's `LEVELS` table are not part of this model. Any table with at least three entries is allowed.
