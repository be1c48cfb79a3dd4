/** The `reduce` of `parse(from:)`: the records, in production order, grouped into
    one list per file. */
module Aggregation {

  import opened FunctionTime

  type FunctionsPerFile = map<string, seq<SwiftFunctionTime>>

  /** The list kept for `file`, empty when there is none. */
  function ListFor(functionsPerFile: FunctionsPerFile, file: string): seq<SwiftFunctionTime>
  {
    if file in functionsPerFile then functionsPerFile[file] else []
  }

  /** One step of the `reduce`: append to the record's file list, creating the
      list on first use; every other list is unchanged. */
  function AddToFile(functionsPerFile: FunctionsPerFile, functionTime: SwiftFunctionTime): (r: FunctionsPerFile)
    ensures r.Keys == functionsPerFile.Keys + {functionTime.file}
    ensures r[functionTime.file] == ListFor(functionsPerFile, functionTime.file) + [functionTime]
    ensures forall k :: k in functionsPerFile && k != functionTime.file ==> r[k] == functionsPerFile[k]
  {
    if functionTime.file in functionsPerFile then
      functionsPerFile[functionTime.file := functionsPerFile[functionTime.file] + [functionTime]]
    else
      functionsPerFile[functionTime.file := [functionTime]]
  }

  /** The records folded, first to last, into per-file lists. */
  function GroupByFile(records: seq<SwiftFunctionTime>): (r: FunctionsPerFile)
    ensures forall k :: k in r ==> r[k] != []
    ensures r == map[] <==> records == []
  {
    if records == [] then map[]
    else
      var r := AddToFile(GroupByFile(records[..|records| - 1]), records[|records| - 1]);
      assert records[|records| - 1].file in r;
      r
  }

  /** A single record gives a single file holding just that record. */
  lemma GroupByFileSingle(functionTime: SwiftFunctionTime)
    ensures GroupByFile([functionTime]) == map[functionTime.file := [functionTime]]
  {
    assert [functionTime][..0] == [];
  }

  /** The records that belong to `file`, in the order they were produced: an
      independent description of each list `GroupByFile` builds. */
  function RecordsOfFile(records: seq<SwiftFunctionTime>, file: string): (r: seq<SwiftFunctionTime>)
    ensures |r| <= |records|
    ensures forall i :: 0 <= i < |r| ==> r[i].file == file
  {
    if records == [] then []
    else
      var last := records[|records| - 1];
      RecordsOfFile(records[..|records| - 1], file) + if last.file == file then [last] else []
  }

  lemma {:induction false} RecordsOfFileAppend(first: seq<SwiftFunctionTime>, second: seq<SwiftFunctionTime>, file: string)
    ensures RecordsOfFile(first + second, file) == RecordsOfFile(first, file) + RecordsOfFile(second, file)
    decreases |second|
  {
    if second == [] {
      assert first + second == first;
    } else {
      var n := |second| - 1;
      assert (first + second)[..|first + second| - 1] == first + second[..n];
      assert (first + second)[|first + second| - 1] == second[n];
      RecordsOfFileAppend(first, second[..n], file);
    }
  }

  /** The list under each file is exactly that file's records in production
      order; a file with no records has no list. */
  lemma {:induction false} GroupByFileIsFilter(records: seq<SwiftFunctionTime>, file: string)
    ensures ListFor(GroupByFile(records), file) == RecordsOfFile(records, file)
  {
    if records != [] {
      GroupByFileIsFilter(records[..|records| - 1], file);
    }
  }

  /** The keys are exactly the files of the records. */
  lemma {:induction false} GroupByFileKeys(records: seq<SwiftFunctionTime>)
    ensures forall file :: file in GroupByFile(records) <==>
      exists i :: 0 <= i < |records| && records[i].file == file
  {
    if records != [] {
      var init := records[..|records| - 1];
      GroupByFileKeys(init);
      assert forall i :: 0 <= i < |init| ==> init[i] == records[i];
    }
  }

  /** Every record listed under a key has that key as its file. */
  lemma GroupByFileSameFile(records: seq<SwiftFunctionTime>)
    ensures forall k, t :: k in GroupByFile(records) && t in GroupByFile(records)[k] ==> t.file == k
  {
    forall k | k in GroupByFile(records)
      ensures forall t :: t in GroupByFile(records)[k] ==> t.file == k
    {
      GroupByFileIsFilter(records, k);
    }
  }

  /** The sum of the lengths of the lists. */
  ghost function TotalLength(functionsPerFile: FunctionsPerFile): nat
    decreases |functionsPerFile.Keys|
  {
    if functionsPerFile == map[] then 0
    else
      var k :| k in functionsPerFile;
      |functionsPerFile[k]| + TotalLength(functionsPerFile - {k})
  }

  /** The sum does not depend on which key is taken first. */
  lemma {:induction false} TotalLengthRemove(functionsPerFile: FunctionsPerFile, k: string)
    requires k in functionsPerFile
    ensures TotalLength(functionsPerFile) == |functionsPerFile[k]| + TotalLength(functionsPerFile - {k})
    decreases |functionsPerFile.Keys|
  {
    var m := functionsPerFile;
    var k' :| k' in m && TotalLength(m) == |m[k']| + TotalLength(m - {k'});
    if k' != k {
      assert (m - {k'}).Keys == m.Keys - {k'};
      assert (m - {k}).Keys == m.Keys - {k};
      TotalLengthRemove(m - {k'}, k);
      TotalLengthRemove(m - {k}, k');
      assert m - {k'} - {k} == m - {k} - {k'};
    }
  }

  /** The list lengths add up to the number of records: nothing is lost or
      duplicated by the grouping. */
  lemma {:induction false} GroupByFileTotal(records: seq<SwiftFunctionTime>)
    ensures TotalLength(GroupByFile(records)) == |records|
  {
    if records != [] {
      var init, last := records[..|records| - 1], records[|records| - 1];
      var before := GroupByFile(init);
      var after := GroupByFile(records);
      GroupByFileTotal(init);
      TotalLengthRemove(after, last.file);
      if last.file in before {
        TotalLengthRemove(before, last.file);
        assert after - {last.file} == before - {last.file};
      } else {
        assert after - {last.file} == before;
      }
    }
  }

}
