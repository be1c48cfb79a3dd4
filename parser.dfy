/** The parser object: its lazily compiled pattern and `parse(from:)`, which runs
    every command through the pattern and groups all records by file. */
module TimeOptionParser {

  import opened Wrappers
  import opened FunctionTime
  import opened Aggregation

  /** `SwiftCompilerFunctionTimeOptionParser`. */
  class SwiftCompilerFunctionTimeOptionParser {

    /** The helpers the protocol provides. */
    const collaborators: Collaborators

    /** What compiling the fixed timing-line pattern yields; `None` when it fails. */
    const compiledPattern: Option<Regex>

    /** Storage of the `lazy var regexp`: `None` before the first read, the compiled
        pattern (itself optional) afterwards. */
    var regexp: Option<Option<Regex>>

    ghost predicate Valid()
      reads this
    {
      regexp == None || regexp == Some(compiledPattern)
    }

    constructor (collaborators: Collaborators, compiledPattern: Option<Regex>)
      ensures Valid() && regexp == None
      ensures this.collaborators == collaborators && this.compiledPattern == compiledPattern
    {
      this.collaborators := collaborators;
      this.compiledPattern := compiledPattern;
      regexp := None;
    }

    /** Reading the lazy property: compiles on first use, and every read yields the
        same pattern. */
    method Regexp() returns (re: Option<Regex>)
      requires Valid()
      modifies this
      ensures Valid() && regexp == Some(compiledPattern)
      ensures re == compiledPattern
    {
      if regexp.None? {
        regexp := Some(compiledPattern);
      }
      re := regexp.value;
    }

    /** `parse(command:occurrences:)`. */
    method ParseCommand(command: string, occurrences: int) returns (functionTimes: Option<seq<SwiftFunctionTime>>)
      requires Valid()
      modifies this
      ensures Valid() && regexp == Some(compiledPattern)
      ensures functionTimes == FunctionTime.ParseCommand(collaborators, compiledPattern, command, occurrences)
    {
      var re := Regexp();
      match re {
        case None =>
          functionTimes := None;
        case Some(pattern) =>
          functionTimes := Some(BuildRecords(collaborators, pattern.matches(command), occurrences));
      }
    }

    /** `parse(from:)`: the records of every command, in command order, joined and
        then folded into one list per file. */
    method Parse(commands: seq<(string, int)>) returns (functionsPerFile: FunctionsPerFile)
      requires Valid()
      modifies this
      ensures Valid()
      ensures regexp == if commands == [] then old(regexp) else Some(compiledPattern)
      ensures functionsPerFile == GroupByFile(AllRecords(collaborators, compiledPattern, commands))
    {
      var records: seq<SwiftFunctionTime> := [];
      for i := 0 to |commands|
        invariant Valid()
        invariant regexp == if i == 0 then old(regexp) else Some(compiledPattern)
        invariant records == AllRecords(collaborators, compiledPattern, commands[..i])
      {
        var (command, occurrences) := commands[i];
        var functionTimes := ParseCommand(command, occurrences);
        assert commands[..i + 1][..i] == commands[..i];
        if functionTimes.Some? {
          records := records + functionTimes.value;
        }
      }
      assert commands[..|commands|] == commands;

      functionsPerFile := map[];
      for j := 0 to |records|
        invariant functionsPerFile == GroupByFile(records[..j])
      {
        var functionTime := records[j];
        assert records[..j + 1][..j] == records[..j];
        if functionTime.file in functionsPerFile {
          var functions := functionsPerFile[functionTime.file];
          functions := functions + [functionTime];
          functionsPerFile := functionsPerFile[functionTime.file := functions];
        } else {
          functionsPerFile := functionsPerFile[functionTime.file := [functionTime]];
        }
      }
      assert records[..|records|] == records;
    }
  }

  /** The list of a file over two runs of commands is its list over the first run
      followed by its list over the second: records of one file from several
      commands land in one list, in command order. */
  lemma PerFileListFollowsCommandOrder(
    p: Collaborators, regexp: Option<Regex>, first: seq<(string, int)>, second: seq<(string, int)>, file: string)
    ensures ListFor(GroupByFile(AllRecords(p, regexp, first + second)), file) ==
            ListFor(GroupByFile(AllRecords(p, regexp, first)), file) +
            ListFor(GroupByFile(AllRecords(p, regexp, second)), file)
  {
    AllRecordsAppend(p, regexp, first, second);
    GroupByFileIsFilter(AllRecords(p, regexp, first + second), file);
    GroupByFileIsFilter(AllRecords(p, regexp, first), file);
    GroupByFileIsFilter(AllRecords(p, regexp, second), file);
    RecordsOfFileAppend(AllRecords(p, regexp, first), AllRecords(p, regexp, second), file);
  }

  /** Without a compiled pattern, no command contributes and the result is empty;
      the same holds for an empty input. */
  lemma NothingWithoutPatternOrCommands(p: Collaborators, regexp: Option<Regex>, commands: seq<(string, int)>)
    requires regexp.None? || commands == []
    ensures GroupByFile(AllRecords(p, regexp, commands)) == map[]
  {
  }


  /** A command with a single match that decodes contributes exactly its record. */
  lemma AllRecordsSingle(p: Collaborators, re: Regex, command: string, occurrences: int,
                         m: RegexMatch, record: SwiftFunctionTime)
    requires re.matches(command) == [m]
    requires BuildRecord(p, m, occurrences) == Some(record)
    ensures AllRecords(p, Some(re), [(command, occurrences)]) == [record]
  {
    AllRecordsOne(p, Some(re), command, occurrences);
    BuildRecordsSingle(p, m, occurrences);
  }

  /** End to end: a single command whose only timing entry decodes gives one
      file holding exactly that record, under the record's own file. */
  lemma ParseFromSingleMatch(p: Collaborators, re: Regex, command: string, occurrences: int,
                             m: RegexMatch, record: SwiftFunctionTime)
    requires re.matches(command) == [m]
    requires BuildRecord(p, m, occurrences) == Some(record)
    ensures GroupByFile(AllRecords(p, Some(re), [(command, occurrences)])) == map[record.file := [record]]
  {
    AllRecordsSingle(p, re, command, occurrences, m, record);
    GroupByFileSingle(record);
  }

  /** The same for a command whose only entry is `12.34`, `/Users/a/b.swift:10:5`,
      `foo(_:)`, counted 3 times. */
  lemma ParseFromExample(p: Collaborators, re: Regex, command: string)
    requires re.matches(command) == [RegexMatch("12.34", "/Users/a/b.swift:10:5", "foo(_:)")]
    requires !p.isInvalid("/Users/a/b.swift:10:5")
    ensures GroupByFile(AllRecords(p, Some(re), [(command, 3)])) ==
      map[p.prefixWithFileURL("/Users/a/b.swift") :=
        [SwiftFunctionTime(p.prefixWithFileURL("/Users/a/b.swift"), p.parseCompileDuration("12.34"),
                           10, 5, "foo(_:)", 3)]]
  {
    BuildRecordExample(p);
    ParseFromSingleMatch(p, re, command, 3, RegexMatch("12.34", "/Users/a/b.swift:10:5", "foo(_:)"),
      SwiftFunctionTime(p.prefixWithFileURL("/Users/a/b.swift"), p.parseCompileDuration("12.34"),
                        10, 5, "foo(_:)", 3));
  }
}
