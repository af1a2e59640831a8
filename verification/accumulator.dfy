/**
 How one file-level result is flattened into stored test records, and what a
 sequence of file-level results contributes to the accumulator in total.
 */
module Accumulator {
  import opened JsValues
  import opened Shapes

  /** The stored record for one individual result of the file at `filePath`. */
  function ToTestInfo(filePath: string, a: AssertionResult): (t: TestInfo)
    ensures t.title == a.title && t.fullName == a.fullName
    ensures t.status == a.status && t.failureMessages == a.failureMessages
    ensures t.filePath == filePath
    ensures a.duration.Some? ==> t.duration == a.duration.value
    ensures a.duration.None? ==> t.duration == 0
  {
    TestInfo(
      title := a.title,
      status := a.status,
      duration := OrZero(a.duration),
      failureMessages := a.failureMessages,
      filePath := filePath,
      fullName := a.fullName
    )
  }

  /** The individual results a file-level result carries; a missing list carries none. */
  function Individuals(f: FileResult): seq<AssertionResult> {
    f.testResults.GetOr([])
  }

  /** The records pushed, one per individual result and in the same order, by
      visiting `xs` front to back. */
  function RecordsFrom(filePath: string, xs: seq<AssertionResult>): (rs: seq<TestInfo>)
    ensures |rs| == |xs|
    ensures forall i :: 0 <= i < |xs| ==> rs[i] == ToTestInfo(filePath, xs[i])
  {
    if xs == [] then [] else [ToTestInfo(filePath, xs[0])] + RecordsFrom(filePath, xs[1..])
  }

  /** The records one file-level result contributes; every one carries the file's path. */
  function RecordsOf(f: FileResult): (rs: seq<TestInfo>)
    ensures |rs| == |Individuals(f)|
    ensures forall i :: 0 <= i < |rs| ==> rs[i] == ToTestInfo(f.testFilePath, Individuals(f)[i])
    ensures forall i :: 0 <= i < |rs| ==> rs[i].filePath == f.testFilePath
    ensures f.testResults.None? ==> rs == []
  {
    RecordsFrom(f.testFilePath, Individuals(f))
  }

  /** The records a sequence of file-level results contributes, file after file. */
  function RecordsOfAll(files: seq<FileResult>): seq<TestInfo> {
    if files == [] then [] else RecordsOf(files[0]) + RecordsOfAll(files[1..])
  }

  /** The number of individual results across a sequence of file-level results. */
  function CountAll(files: seq<FileResult>): nat {
    if files == [] then 0 else |Individuals(files[0])| + CountAll(files[1..])
  }

  /** Concatenation is associative; stated on its own so that proofs about
      records do not have to rediscover it among the records' contracts. */
  lemma ConcatAssociates<T>(a: seq<T>, b: seq<T>, c: seq<T>)
    ensures (a + b) + c == a + (b + c)
  {
  }

  /** Flattening a non-empty sequence of files is flattening its first file, then the rest. */
  lemma RecordsOfAllUnfolds(files: seq<FileResult>)
    requires files != []
    ensures RecordsOfAll(files) == RecordsOf(files[0]) + RecordsOfAll(files[1..])
  {
  }

  /** Flattening a sequence of files yields exactly one record per individual result. */
  lemma {:induction false} RecordsOfAllLength(files: seq<FileResult>)
    ensures |RecordsOfAll(files)| == CountAll(files)
  {
    if files != [] {
      RecordsOfAllLength(files[1..]);
    }
  }

  /** Flattening distributes over splitting the sequence of files. */
  lemma {:induction false} RecordsOfAllAppend(files: seq<FileResult>, more: seq<FileResult>)
    ensures RecordsOfAll(files + more) == RecordsOfAll(files) + RecordsOfAll(more)
  {
    if files == [] {
      assert files + more == more;
    } else {
      assert (files + more)[1..] == files[1..] + more;
      RecordsOfAllAppend(files[1..], more);
    }
  }
}
