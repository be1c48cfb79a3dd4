# Swift function-body timing parser, modelled in Dafny

This project models `SwiftCompilerFunctionTimeOptionParser` from XCLogParser. The parser reads the
text that `swiftc -Xfrontend -debug-time-function-bodies` prints: one line per function body, with
the milliseconds spent, the location `path:line:column` and the function's signature. It turns that
text into `SwiftFunctionTime` records grouped by file. The model covers five parts:

- **Flag detection** (`FunctionTime.HasCompilerFlag`). This is a plain substring test for
  `-debug-time-function-bodies`. It does no tokenisation.
- **Location decoding** (`FunctionTime.ParseFunctionLocation`, `FunctionTime.ParseLocation`). The
  location is split at its first colon. The part after it is split again at its first colon. Both
  halves are read with Swift's `Int(_:)` (`SwiftInt.ParseInt`): an optional sign, at least one ASCII
  digit, and a value within the 64-bit range.
- **Record building** (`FunctionTime.BuildRecord`, `FunctionTime.BuildRecords`,
  `FunctionTime.ParseCommand`). A match whose location is judged invalid, lacks a colon, or has a
  line or column that is not an integer gives no record at all. Every other match gives one record
  that carries the command's occurrence count.
- **Aggregation** (`Aggregation.GroupByFile`). All records are folded, in production order, into one
  list per file.
- **The parser object** (`TimeOptionParser.SwiftCompilerFunctionTimeOptionParser`). It holds the
  lazily compiled `regexp`. Its `Parse` method is `parse(from:)`, written as the two loops it
  performs: collect the records of every command, then build the dictionary step by step.

The regular-expression engine is not modelled. A compiled pattern is a `Regex` value: a function from
a command's text to its matches. Each match is the triple of capture groups (duration text, location
text, signature text), in textual order. If the pattern fails to compile, `regexp` is `nil`; the
model represents that as `None`. The three helpers the parser inherits from its protocol are
`isInvalid(fileName:)`, `prefixWithFileURL(fileName:)` and `parseCompileDuration(_:)`. They are
fields of a `Collaborators` value, with nothing assumed about them. The dictionary
`[String: Int]` of commands is a sequence of (command, count) pairs, so that the order of its
iteration is explicit.

Two behaviours of the code are worth stating outright:

- The code does not check that line and column are positive. `Int(_:)` accepts `0`, `-7` and `+3`,
  so such records are built (`FunctionTime.BuildRecordAcceptsNonPositive`).
- The code never compares the location with `invalidLoc`. It asks `isInvalid(fileName:)`, which this
  model leaves uninterpreted. The constant `invalidLoc` has a space; the pattern's alternative for
  it has a tab. Neither spelling contains a colon, so neither can yield a record, whatever
  `isInvalid` answers (`FunctionTime.SentinelNeverDecodes`).

## Model

| member | source | states |
|---|---|---|
| `Text.Contains` | Sources/XCLogParser/parser/SwiftCompilerFunctionTimeOptionParser.swift:36 | true exactly when the pattern is non-empty and occurs at some position of the text as a contiguous run; an empty search string is never found |
| `FunctionTime.HasCompilerFlag` | Sources/XCLogParser/parser/SwiftCompilerFunctionTimeOptionParser.swift:35-37 | true exactly when `-debug-time-function-bodies` occurs as a contiguous substring of the command |
| `FunctionTime.FlagFoundAnywhere` | Sources/XCLogParser/parser/SwiftCompilerFunctionTimeOptionParser.swift:26 | the flag is found whatever text surrounds it, so no tokenisation takes place |
| `Text.FirstIndexOf` | Sources/XCLogParser/parser/SwiftCompilerFunctionTimeOptionParser.swift:90 | absent exactly when the character does not occur; otherwise the index of an occurrence with none before it |
| `Text.FirstIndexOfJoin` | Sources/XCLogParser/parser/SwiftCompilerFunctionTimeOptionParser.swift:101 | in `a + [c] + b` with `c` not in `a`, the first `c` is at index `|a|` |
| `FunctionTime.ParseFunctionLocation` | Sources/XCLogParser/parser/SwiftCompilerFunctionTimeOptionParser.swift:89-98 | none exactly when there is no colon; otherwise a colon-free head `a` and a tail `b` with `a + ":" + b` equal to the input |
| `FunctionTime.ParseFunctionLocationJoin` | Sources/XCLogParser/parser/SwiftCompilerFunctionTimeOptionParser.swift:93-97 | split after join: a colon-free head joined to any tail splits back into exactly that head and tail |
| `SwiftInt.ParseInt` | Sources/XCLogParser/parser/SwiftCompilerFunctionTimeOptionParser.swift:107-108 | a parsed value is within the 64-bit range, and the text is non-empty with only digits after an optional leading sign |
| `SwiftInt.IntToString` | Sources/XCLogParser/parser/SwiftCompilerFunctionTimeOptionParser.swift:107-108 | reading back the decimal rendering of `n` gives `n` exactly when `n` fits in 64 bits, and fails otherwise |
| `SwiftInt.ParseIntSound` | Sources/XCLogParser/parser/SwiftCompilerFunctionTimeOptionParser.swift:107-108 | every accepted text is an optional `+` or `-` followed by one or more digits, and its value is the signed value of those digits |
| `SwiftInt.ParseIntComplete` | Sources/XCLogParser/parser/SwiftCompilerFunctionTimeOptionParser.swift:107-108 | conversely, any optional sign followed by one or more digits whose signed value fits in 64 bits is accepted with that value, leading zeros included |
| `SwiftInt.DigitsValueLeadingZero` | Sources/XCLogParser/parser/SwiftCompilerFunctionTimeOptionParser.swift:107-108 | a zero in front of a run of digits does not change its value |
| `SwiftInt.ParseIntLeadingZero` | Sources/XCLogParser/parser/SwiftCompilerFunctionTimeOptionParser.swift:107-108 | a zero inserted after the sign of a rendered 64-bit integer is read back as the same integer (`012` is 12, `-07` is -7) |
| `SwiftInt.ParseIntExplicitPlus` | Sources/XCLogParser/parser/SwiftCompilerFunctionTimeOptionParser.swift:107-108 | a `+` put before a rendered non-negative 64-bit integer is read back as the same integer |
| `SwiftInt.ParseIntRejectsColon` | Sources/XCLogParser/parser/SwiftCompilerFunctionTimeOptionParser.swift:108 | a text containing a colon is never an integer |
| `SwiftInt.ParseIntExamples` | Sources/XCLogParser/parser/SwiftCompilerFunctionTimeOptionParser.swift:107-108 | leading zeros, `+` and `-0` are accepted; the empty text, a bare `-` or `+` and a leading blank are not |
| `FunctionTime.ParseLocation` | Sources/XCLogParser/parser/SwiftCompilerFunctionTimeOptionParser.swift:100-112 | none when there is no colon; a result is the pair of integers read from a colon-free line text and the column text that follows the colon |
| `FunctionTime.ParseLocationJoin` | Sources/XCLogParser/parser/SwiftCompilerFunctionTimeOptionParser.swift:104-111 | for a colon-free line text, the position decodes exactly when both sides are integers, and then to exactly those two values |
| `FunctionTime.ParseLocationRoundTrip` | Sources/XCLogParser/parser/SwiftCompilerFunctionTimeOptionParser.swift:100-112 | rendering two 64-bit integers as `line:column` and decoding gives them back, signs included |
| `FunctionTime.ParseLocationRejectsSecondColon` | Sources/XCLogParser/parser/SwiftCompilerFunctionTimeOptionParser.swift:104-110 | a position with a second colon, such as `10:5:3`, never decodes |
| `FunctionTime.BuildRecord` | Sources/XCLogParser/parser/SwiftCompilerFunctionTimeOptionParser.swift:61-85 | none when the location is judged invalid; a record copies the signature, the count and the parsed duration, and its file, line and column come from a decomposition `path:line:column` of the location |
| `FunctionTime.BuildRecordComplete` | Sources/XCLogParser/parser/SwiftCompilerFunctionTimeOptionParser.swift:64-84 | every valid location that decodes to a path, line and column yields exactly the record built from them, so no entry is dropped wrongly and none is half-filled |
| `FunctionTime.BuildRecordRoundTrip` | Sources/XCLogParser/parser/SwiftCompilerFunctionTimeOptionParser.swift:70-84 | a colon-free path with a rendered line and column yields file `prefixWithFileURL(path)`, that line and that column |
| `FunctionTime.BuildRecordNeedsBothColons` | Sources/XCLogParser/parser/SwiftCompilerFunctionTimeOptionParser.swift:70-76 | a location without a colon, or with exactly one, yields no record |
| `FunctionTime.SentinelNeverDecodes` | Sources/XCLogParser/parser/SwiftCompilerFunctionTimeOptionParser.swift:64-72 | both spellings of the invalid-location sentinel (space and tab) yield no record, whatever `isInvalid` answers |
| `FunctionTime.BuildRecordExample` | Sources/XCLogParser/parser/SwiftCompilerFunctionTimeOptionParser.swift:61-85 | the entry `12.34`, `/Users/a/b.swift:10:5`, `foo(_:)` with count 3 yields the record for that file at line 10, column 5 |
| `FunctionTime.BuildRecordAcceptsNonPositive` | Sources/XCLogParser/parser/SwiftCompilerFunctionTimeOptionParser.swift:107-111 | line 0 and column -7 are accepted as they are; no positivity is checked |
| `Sequences.CompactMap` | Sources/XCLogParser/parser/SwiftCompilerFunctionTimeOptionParser.swift:61 | at most one output per input, and each output is the present result for one input |
| `Sequences.CompactMapAppend` | Sources/XCLogParser/parser/SwiftCompilerFunctionTimeOptionParser.swift:61-86 | order is preserved: the outputs for two consecutive runs of inputs are the outputs of the first run followed by those of the second |
| `Sequences.CompactMapEmpty` | Sources/XCLogParser/parser/SwiftCompilerFunctionTimeOptionParser.swift:61-86 | nothing is output exactly when every input is rejected |
| `Sequences.CompactMapSingle` | Sources/XCLogParser/parser/SwiftCompilerFunctionTimeOptionParser.swift:61-86 | a single input gives its present result, or nothing when it is rejected |
| `FunctionTime.BuildRecords` | Sources/XCLogParser/parser/SwiftCompilerFunctionTimeOptionParser.swift:60-86 | at most one record per match; every record carries the command's count and is the record of one of the matches |
| `FunctionTime.BuildRecordsSingle` | Sources/XCLogParser/parser/SwiftCompilerFunctionTimeOptionParser.swift:60-86 | a lone match gives its record when it decodes, and no record otherwise |
| `FunctionTime.ParseCommand` | Sources/XCLogParser/parser/SwiftCompilerFunctionTimeOptionParser.swift:55-58 | nil exactly when the pattern is unavailable; every record carries the supplied count |
| `FunctionTime.AllRecords` | Sources/XCLogParser/parser/SwiftCompilerFunctionTimeOptionParser.swift:40-41 | empty when the pattern is unavailable; every record carries the count of one of the commands |
| `FunctionTime.AllRecordsOne` | Sources/XCLogParser/parser/SwiftCompilerFunctionTimeOptionParser.swift:40-41 | a single command contributes exactly the records of its own matches, in match order, with its own count; nothing when the pattern is unavailable |
| `FunctionTime.AllRecordsAppend` | Sources/XCLogParser/parser/SwiftCompilerFunctionTimeOptionParser.swift:40-41 | command order is kept: the records of two runs of commands are those of the first run followed by those of the second |
| `Aggregation.AddToFile` | Sources/XCLogParser/parser/SwiftCompilerFunctionTimeOptionParser.swift:43-50 | the record's file list gains the record at its end and is created if missing; every other list is unchanged |
| `Aggregation.GroupByFile` | Sources/XCLogParser/parser/SwiftCompilerFunctionTimeOptionParser.swift:41-51 | no list is empty, and the result is empty exactly when there are no records |
| `Aggregation.RecordsOfFile` | Sources/XCLogParser/parser/SwiftCompilerFunctionTimeOptionParser.swift:44-49 | the records of one file, in production order, all having that file |
| `Aggregation.RecordsOfFileAppend` | Sources/XCLogParser/parser/SwiftCompilerFunctionTimeOptionParser.swift:41-51 | selecting one file's records from two runs concatenated is selecting from each run and concatenating |
| `Aggregation.GroupByFileSingle` | Sources/XCLogParser/parser/SwiftCompilerFunctionTimeOptionParser.swift:44-49 | a single record gives one file holding just that record, under the record's own file |
| `Aggregation.GroupByFileIsFilter` | Sources/XCLogParser/parser/SwiftCompilerFunctionTimeOptionParser.swift:41-51 | the list under each file is exactly that file's records in production order, and a file without records has no list |
| `Aggregation.GroupByFileKeys` | Sources/XCLogParser/parser/SwiftCompilerFunctionTimeOptionParser.swift:44-49 | the keys are exactly the files of the records |
| `Aggregation.GroupByFileSameFile` | Sources/XCLogParser/parser/SwiftCompilerFunctionTimeOptionParser.swift:44-49 | every record under key `k` has `file == k` |
| `Aggregation.GroupByFileTotal` | Sources/XCLogParser/parser/SwiftCompilerFunctionTimeOptionParser.swift:41-51 | the list lengths add up to the number of records |
| `TimeOptionParser.SwiftCompilerFunctionTimeOptionParser.constructor` | Sources/XCLogParser/parser/SwiftCompilerFunctionTimeOptionParser.swift:24-33 | a new parser has not compiled its pattern yet |
| `TimeOptionParser.SwiftCompilerFunctionTimeOptionParser.Regexp` | Sources/XCLogParser/parser/SwiftCompilerFunctionTimeOptionParser.swift:30-33 | every read of the lazy property yields the same compiled pattern, and the storage holds it after the first read |
| `TimeOptionParser.SwiftCompilerFunctionTimeOptionParser.ParseCommand` | Sources/XCLogParser/parser/SwiftCompilerFunctionTimeOptionParser.swift:55-87 | returns the records of the command as the pure function defines them, and leaves the pattern compiled |
| `TimeOptionParser.SwiftCompilerFunctionTimeOptionParser.Parse` | Sources/XCLogParser/parser/SwiftCompilerFunctionTimeOptionParser.swift:39-53 | the dictionary built step by step equals the grouping of all records in production order; the pattern is compiled when there was at least one command |
| `TimeOptionParser.PerFileListFollowsCommandOrder` | Sources/XCLogParser/parser/SwiftCompilerFunctionTimeOptionParser.swift:39-53 | one file's records from several commands land in one list, the first commands' records first |
| `TimeOptionParser.NothingWithoutPatternOrCommands` | Sources/XCLogParser/parser/SwiftCompilerFunctionTimeOptionParser.swift:39-58 | the result is empty when the pattern is unavailable or there are no commands |
| `TimeOptionParser.AllRecordsSingle` | Sources/XCLogParser/parser/SwiftCompilerFunctionTimeOptionParser.swift:40-41 | a command whose only match decodes contributes exactly that record |
| `TimeOptionParser.ParseFromSingleMatch` | Sources/XCLogParser/parser/SwiftCompilerFunctionTimeOptionParser.swift:39-86 | end to end: one command whose only match decodes gives one file, keyed by the record's file, holding exactly that record |
| `TimeOptionParser.ParseFromExample` | Sources/XCLogParser/parser/SwiftCompilerFunctionTimeOptionParser.swift:39-86 | end to end: the entry `12.34`, `/Users/a/b.swift:10:5`, `foo(_:)` counted 3 times gives one file, the URL of `/Users/a/b.swift`, holding the record with line 10, column 5, that signature and count 3 |

## Left out

- The `NSRegularExpression` matching and the `NSRange`/UTF-16 index handling are left out, because they belong to Foundation. The matches are an abstract function of the command text. The shape `[0-9]+\.[0-9]+` of the duration is not checked.
- `isInvalid(fileName:)`, `prefixWithFileURL(fileName:)` and `parseCompileDuration(_:)` come from the `SwiftCompilerTimeOptionParser` protocol, which is not part of this model. They are uninterpreted function parameters.
- The duration is a `Double`. It is carried as a `real` that is only copied. Floating-point behaviour is not modelled.
- Strings are sequences of Unicode scalars. Swift's `Character` (grapheme cluster) comparison in `range(of:)` and `firstIndex(of:)` is not modelled, so a colon that is combined with a following mark counts as a colon here.
- The thread safety of the lazy `regexp` initialisation is not modelled. Nothing here is concurrent.
- The iteration order of the `[String: Int]` dictionary is not modelled. The input is a sequence of pairs, and the ordering properties hold for whatever order it gives. Keys are not required to be distinct.
