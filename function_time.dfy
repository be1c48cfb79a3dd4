/** Turning `swiftc -debug-time-function-bodies` timing entries into function-timing
    records: flag detection, location decoding, the per-match record, the records of
    one command and the records of all commands in production order. */
module FunctionTime {

  import opened Wrappers
  import opened Text
  import opened SwiftInt
  import opened Sequences

  /** The frontend flag that makes `swiftc` print one timing entry per function body. */
  const CompilerFlag: string := "-debug-time-function-bodies"

  /** The sentinel the compiler prints in place of a location (with a space). */
  const InvalidLoc: string := "<invalid loc>"

  /** The sentinel as the regex's first location alternative spells it (with a tab). */
  const InvalidLocInPattern: string := "<invalid\tloc>"

  /** A `Double` count of milliseconds; this core only copies it. */
  type Milliseconds = real

  /** `SwiftFunctionTime`: one measured function body. */
  datatype SwiftFunctionTime = SwiftFunctionTime(
    file: string,
    durationMS: Milliseconds,
    startingLine: int,
    startingColumn: int,
    signature: string,
    occurrences: int)

  /** Capture groups 1, 2 and 3 of one match: duration, location, signature. */
  datatype RegexMatch = RegexMatch(durationText: string, locationText: string, signatureText: string)

  /** A compiled pattern: the non-overlapping matches in a text, left to right. */
  datatype Regex = Regex(matches: string -> seq<RegexMatch>)

  /** The helpers the parser takes from its `SwiftCompilerTimeOptionParser` protocol. */
  datatype Collaborators = Collaborators(
    isInvalid: string -> bool,
    prefixWithFileURL: string -> string,
    parseCompileDuration: string -> Milliseconds)

  // ---------------------------------------------------------------- flag detection

  /** True exactly when the flag occurs as a contiguous substring of the command. */
  function HasCompilerFlag(commandDesc: string): (b: bool)
    ensures b <==> exists k: nat :: OccursAt(commandDesc, CompilerFlag, k)
  {
    Contains(commandDesc, CompilerFlag)
  }

  /** There is no tokenisation: the flag is found whatever surrounds it, even as
      part of a longer word. */
  lemma FlagFoundAnywhere(before: string, after: string)
    ensures HasCompilerFlag(before + CompilerFlag + after)
  {
    var s := before + CompilerFlag + after;
    assert s[|before|..|before| + |CompilerFlag|] == CompilerFlag;
    assert OccursAt(s, CompilerFlag, |before|);
  }

  // ---------------------------------------------------------------- location decoding

  /** Splits `path:rest` at its first colon. */
  function ParseFunctionLocation(functionLocation: string): (r: Option<(string, string)>)
    ensures r.None? <==> ':' !in functionLocation
    ensures r.Some? ==> ':' !in r.value.0 && r.value.0 + ":" + r.value.1 == functionLocation
  {
    match FirstIndexOf(functionLocation, ':')
    case None => None
    case Some(colonIndex) =>
      Some((functionLocation[..colonIndex], functionLocation[colonIndex + 1..]))
  }

  /** Joining a colon-free head to any tail and splitting again gives both back. */
  lemma {:induction false} ParseFunctionLocationJoin(head: string, rest: string)
    requires ':' !in head
    ensures ParseFunctionLocation(head + ":" + rest) == Some((head, rest))
  {
    FirstIndexOfJoin(head, ':', rest);
    var s := head + ":" + rest;
    assert s[..|head|] == head;
    assert s[|head| + 1..] == rest;
  }

  /** `location` is `lineText:columnText` with a colon-free line text. */
  predicate IsPosition(location: string, lineText: string, columnText: string)
  {
    ':' !in lineText && location == lineText + ":" + columnText
  }

  /** `line:column` split on its first colon, both sides read with `Int(_:)`. */
  function ParseLocation(location: string): (r: Option<(int, int)>)
    ensures ':' !in location ==> r.None?
    ensures r.Some? ==> exists lineText, columnText ::
      IsPosition(location, lineText, columnText) &&
      ParseInt(lineText) == Some(r.value.0) && ParseInt(columnText) == Some(r.value.1)
  {
    match FirstIndexOf(location, ':')
    case None => None
    case Some(colonIndex) =>
      var line := location[..colonIndex];
      var column := location[colonIndex + 1..];
      assert IsPosition(location, line, column);
      match (ParseInt(line), ParseInt(column))
      case (Some(lineNumber), Some(columnNumber)) => Some((lineNumber, columnNumber))
      case _ => None
  }

  /** For a colon-free line text, the location decodes exactly when both sides
      are integers, and then to those integers. */
  lemma {:induction false} ParseLocationJoin(lineText: string, columnText: string)
    requires ':' !in lineText
    ensures ParseLocation(lineText + ":" + columnText) ==
      if ParseInt(lineText).Some? && ParseInt(columnText).Some?
      then Some((ParseInt(lineText).value, ParseInt(columnText).value))
      else None
  {
    var s := lineText + ":" + columnText;
    FirstIndexOfJoin(lineText, ':', columnText);
    assert s[..|lineText|] == lineText;
    assert s[|lineText| + 1..] == columnText;
  }

  /** Rendering two 64-bit integers as `line:column` and decoding gives them back;
      a sign is accepted, so no positivity is implied. */
  lemma ParseLocationRoundTrip(line: int, column: int)
    requires InIntRange(line) && InIntRange(column)
    ensures ParseLocation(IntToString(line) + ":" + IntToString(column)) == Some((line, column))
  {
    if ':' in IntToString(line) {
      ParseIntRejectsColon(IntToString(line));
    }
    ParseLocationJoin(IntToString(line), IntToString(column));
  }

  /** A position with a second colon (`10:5:3`) never decodes: the column text
      would contain a colon. */
  lemma {:induction false} ParseLocationRejectsSecondColon(a: string, b: string, c: string)
    ensures ParseLocation(a + ":" + b + ":" + c) == None
  {
    var s := a + ":" + b + ":" + c;
    assert s[|a|] == ':';
    var i := FirstIndexOf(s, ':').value;
    var column := s[i + 1..];
    assert column[|a| + |b| - i] == ':';
    ParseIntRejectsColon(column);
  }

  // ---------------------------------------------------------------- one match

  /** `location` is `path:lineText:columnText` with colon-free path and line text. */
  predicate IsLocation(location: string, path: string, lineText: string, columnText: string)
  {
    ':' !in path && ':' !in lineText && location == path + ":" + lineText + ":" + columnText
  }

  /** `location` names `path`, `line` and `column`. */
  ghost predicate Decodes(location: string, path: string, line: int, column: int)
  {
    exists lineText, columnText ::
      IsLocation(location, path, lineText, columnText) &&
      ParseInt(lineText) == Some(line) && ParseInt(columnText) == Some(column)
  }

  /** A colon-free path followed by a decodable position is a decodable location. */
  lemma DecodesFromParts(path: string, position: string, line: int, column: int)
    requires ':' !in path && ParseLocation(position) == Some((line, column))
    ensures Decodes(path + ":" + position, path, line, column)
  {
    var lineText, columnText :| IsPosition(position, lineText, columnText) &&
      ParseInt(lineText) == Some(line) && ParseInt(columnText) == Some(column);
    ConcatAssoc(path + ":", lineText + ":", columnText);
    ConcatAssoc(path + ":", lineText, ":");
    assert IsLocation(path + ":" + position, path, lineText, columnText);
  }

  /** The `compactMap` closure: one record for one match, or none when any
      decoding step fails; no partially filled record is ever built. */
  function BuildRecord(p: Collaborators, m: RegexMatch, occurrences: int): (r: Option<SwiftFunctionTime>)
    ensures p.isInvalid(m.locationText) ==> r.None?
    ensures r.Some? ==>
      && r.value.signature == m.signatureText
      && r.value.occurrences == occurrences
      && r.value.durationMS == p.parseCompileDuration(m.durationText)
    ensures r.Some? ==> exists path ::
      r.value.file == p.prefixWithFileURL(path) &&
      Decodes(m.locationText, path, r.value.startingLine, r.value.startingColumn)
  {
    if p.isInvalid(m.locationText) then None
    else
      match ParseFunctionLocation(m.locationText)
      case None => None
      case Some((fileName, location)) =>
        var fileURL := p.prefixWithFileURL(fileName);
        match ParseLocation(location)
        case None => None
        case Some((line, column)) =>
          DecodesFromParts(fileName, location, line, column);
          Some(SwiftFunctionTime(fileURL, p.parseCompileDuration(m.durationText), line, column,
                                 m.signatureText, occurrences))
  }

  /** Conversely, every location that decodes and is not judged invalid yields
      exactly the record made of its decoded parts. */
  lemma {:induction false} BuildRecordComplete(
    p: Collaborators, m: RegexMatch, occurrences: int, path: string, line: int, column: int)
    requires !p.isInvalid(m.locationText) && Decodes(m.locationText, path, line, column)
    ensures BuildRecord(p, m, occurrences) == Some(SwiftFunctionTime(
      p.prefixWithFileURL(path), p.parseCompileDuration(m.durationText), line, column,
      m.signatureText, occurrences))
  {
    var lineText, columnText :| IsLocation(m.locationText, path, lineText, columnText) &&
      ParseInt(lineText) == Some(line) && ParseInt(columnText) == Some(column);
    assert m.locationText == path + ":" + (lineText + ":" + columnText);
    ParseFunctionLocationJoin(path, lineText + ":" + columnText);
    ParseLocationJoin(lineText, columnText);
  }

  /** Round trip: a colon-free path with a rendered line and column decodes to
      the record of that file, line and column. */
  lemma BuildRecordRoundTrip(
    p: Collaborators, durationText: string, path: string, line: int, column: int,
    signatureText: string, occurrences: int)
    requires ':' !in path && InIntRange(line) && InIntRange(column)
    requires !p.isInvalid(path + ":" + IntToString(line) + ":" + IntToString(column))
    ensures BuildRecord(p, RegexMatch(durationText, path + ":" + IntToString(line) + ":" + IntToString(column),
                                      signatureText), occurrences)
      == Some(SwiftFunctionTime(p.prefixWithFileURL(path), p.parseCompileDuration(durationText),
                                line, column, signatureText, occurrences))
  {
    var location := path + ":" + IntToString(line) + ":" + IntToString(column);
    if ':' in IntToString(line) {
      ParseIntRejectsColon(IntToString(line));
    }
    assert IsLocation(location, path, IntToString(line), IntToString(column));
    BuildRecordComplete(p, RegexMatch(durationText, location, signatureText), occurrences, path, line, column);
  }

  /** A location without a colon, or whose position lacks one, gives no record. */
  lemma BuildRecordNeedsBothColons(p: Collaborators, m: RegexMatch, occurrences: int)
    requires ':' !in m.locationText ||
      (exists path, position :: ':' !in path && ':' !in position && m.locationText == path + ":" + position)
    ensures BuildRecord(p, m, occurrences) == None
  {
    if ':' in m.locationText {
      var path, position :| ':' !in path && ':' !in position && m.locationText == path + ":" + position;
      ParseFunctionLocationJoin(path, position);
    }
  }

  /** Both spellings of the sentinel hold no colon, so neither yields a record,
      whatever `isInvalid` answers. */
  lemma SentinelNeverDecodes(p: Collaborators, durationText: string, signatureText: string, occurrences: int)
    ensures BuildRecord(p, RegexMatch(durationText, InvalidLoc, signatureText), occurrences) == None
    ensures BuildRecord(p, RegexMatch(durationText, InvalidLocInPattern, signatureText), occurrences) == None
  {
    BuildRecordNeedsBothColons(p, RegexMatch(durationText, InvalidLoc, signatureText), occurrences);
    BuildRecordNeedsBothColons(p, RegexMatch(durationText, InvalidLocInPattern, signatureText), occurrences);
  }

  /** A timing entry for `/Users/a/b.swift:10:5` gives one record for that file,
      line 10 and column 5, with the duration, signature and count copied over. */
  lemma BuildRecordExample(p: Collaborators)
    requires !p.isInvalid("/Users/a/b.swift:10:5")
    ensures BuildRecord(p, RegexMatch("12.34", "/Users/a/b.swift:10:5", "foo(_:)"), 3) ==
      Some(SwiftFunctionTime(p.prefixWithFileURL("/Users/a/b.swift"), p.parseCompileDuration("12.34"),
                             10, 5, "foo(_:)", 3))
  {
    assert IntToString(10) == "10" && IntToString(5) == "5";
    assert "/Users/a/b.swift" + ":" + "10" + ":" + "5" == "/Users/a/b.swift:10:5";
    BuildRecordRoundTrip(p, "12.34", "/Users/a/b.swift", 10, 5, "foo(_:)", 3);
  }

  /** Line and column are not checked to be positive: a zero line and a signed
      column are accepted as they are. */
  lemma BuildRecordAcceptsNonPositive(p: Collaborators)
    requires !p.isInvalid("a.swift:0:-7")
    ensures BuildRecord(p, RegexMatch("0.5", "a.swift:0:-7", "f()"), 1) ==
      Some(SwiftFunctionTime(p.prefixWithFileURL("a.swift"), p.parseCompileDuration("0.5"), 0, -7, "f()", 1))
  {
    assert IntToString(0) == "0" && IntToString(-7) == "-7";
    assert "a.swift" + ":" + "0" + ":" + "-7" == "a.swift:0:-7";
    BuildRecordRoundTrip(p, "0.5", "a.swift", 0, -7, "f()", 1);
  }

  // ---------------------------------------------------------------- one command

  /** The records of one command's matches: `BuildRecord` on each match, failures
      dropped; each record comes from one match and carries the command's count. */
  function BuildRecords(p: Collaborators, matches: seq<RegexMatch>, occurrences: int): (r: seq<SwiftFunctionTime>)
    ensures |r| <= |matches|
    ensures forall t :: t in r ==>
      t.occurrences == occurrences &&
      exists j :: 0 <= j < |matches| && BuildRecord(p, matches[j], occurrences) == Some(t)
  {
    CompactMap(m => BuildRecord(p, m, occurrences), matches)
  }

  /** A lone match gives its record when it decodes, and nothing otherwise. */
  lemma BuildRecordsSingle(p: Collaborators, m: RegexMatch, occurrences: int)
    ensures BuildRecords(p, [m], occurrences) ==
      if BuildRecord(p, m, occurrences).Some? then [BuildRecord(p, m, occurrences).value] else []
  {
    CompactMapSingle(m => BuildRecord(p, m, occurrences), m);
  }

  /** `parse(command:occurrences:)`: nil when the pattern did not compile,
      otherwise the records of the command's matches. */
  function ParseCommand(p: Collaborators, regexp: Option<Regex>, command: string, occurrences: int)
    : (r: Option<seq<SwiftFunctionTime>>)
    ensures r.None? <==> regexp.None?
    ensures r.Some? ==> forall t :: t in r.value ==> t.occurrences == occurrences
  {
    match regexp
    case None => None
    case Some(re) => Some(BuildRecords(p, re.matches(command), occurrences))
  }

  // ---------------------------------------------------------------- all commands

  /** `compactMap` over the commands, then `joined()`: every record in production
      order, command by command. */
  function AllRecords(p: Collaborators, regexp: Option<Regex>, commands: seq<(string, int)>)
    : (r: seq<SwiftFunctionTime>)
    ensures regexp.None? ==> r == []
    ensures forall t :: t in r ==> exists i :: 0 <= i < |commands| && t.occurrences == commands[i].1
  {
    if commands == [] then []
    else
      var (command, occurrences) := commands[|commands| - 1];
      var earlier := AllRecords(p, regexp, commands[..|commands| - 1]);
      match ParseCommand(p, regexp, command, occurrences)
      case None => earlier
      case Some(functionTimes) => earlier + functionTimes
  }

  /** A single command contributes exactly the records of its own matches, in
      match order, each carrying that command's count; nothing without a pattern. */
  lemma AllRecordsOne(p: Collaborators, regexp: Option<Regex>, command: string, occurrences: int)
    ensures AllRecords(p, regexp, [(command, occurrences)]) ==
      if regexp.Some? then BuildRecords(p, regexp.value.matches(command), occurrences) else []
  {
    assert [(command, occurrences)][..0] == [];
  }

  /** Command order is kept: the records of two runs of commands are the records
      of the first run followed by those of the second. */
  lemma {:induction false} AllRecordsAppend(
    p: Collaborators, regexp: Option<Regex>, first: seq<(string, int)>, second: seq<(string, int)>)
    ensures AllRecords(p, regexp, first + second) ==
            AllRecords(p, regexp, first) + AllRecords(p, regexp, second)
    decreases |second|
  {
    if second == [] {
      assert first + second == first;
    } else {
      var n := |second| - 1;
      assert (first + second)[..|first + second| - 1] == first + second[..n];
      AllRecordsAppend(p, regexp, first, second[..n]);
    }
  }

}
