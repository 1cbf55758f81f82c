/** The file-writing tool: `split_chunks`, which cuts a string into slices of 120 code units,
    and `stream_create_file`, which writes the slices one after the other to a file under the
    workspace and reports each slice with the running UTF-8 byte total, failing with typed
    `ToolExecutionError`s.

    The file system is a scripted `Faults` value saying which call fails; a workspace object
    records what each file received and how many handles are open. */
module ToolService {
  import opened Wrappers
  import opened SeqLemmas
  import opened Utf16
  import Paths

  // ---------------------------------------------------------------- errors

  datatype ErrorKind = ToolExecution | OtherError | NotAnError

  /** A thrown JavaScript value as its catchers read it: whether it is a `ToolExecutionError`,
      another `Error` or no `Error` at all, its `code` property if it has one, and its
      `message` (for a value that is not an `Error`, `String(value)`). */
  datatype Thrown = Thrown(kind: ErrorKind, code: Option<string>, message: string) {
    const IsError := kind != NotAnError
  }

  /** `new ToolExecutionError(code, message)`. */
  function ToolExecutionError(code: string, message: string): (e: Thrown)
    ensures e.kind == ToolExecution && e.IsError
    ensures e.code == Some(code) && e.message == message
  {
    Thrown(ToolExecution, Some(code), message)
  }

  /** The outer `catch`: a `ToolExecutionError` passes unchanged, anything else becomes
      `tool_error` with its message, or `unknown_tool_error` when it is not an `Error`. */
  function Rethrown(e: Thrown): (r: Thrown)
    ensures r.kind == ToolExecution
    ensures e.kind == ToolExecution ==> r == e
    ensures e.kind != ToolExecution ==> r.code == Some("tool_error")
    ensures e.kind == OtherError ==> r.message == e.message
    ensures e.kind == NotAnError ==> r.message == "unknown_tool_error"
  {
    if e.kind == ToolExecution then e
    else ToolExecutionError("tool_error", if e.IsError then e.message else "unknown_tool_error")
  }

  /** A failed `appendFile`, wrapped as `write_failed`. */
  function WriteFailed(e: Thrown): (r: Thrown)
    ensures r.kind == ToolExecution && r.code == Some("write_failed")
    ensures r.message == if e.IsError then e.message else "write_failed"
  {
    ToolExecutionError("write_failed", if e.IsError then e.message else "write_failed")
  }

  // ---------------------------------------------------------------- split_chunks

  const ChunkSize: nat := 120

  function Min(a: nat, b: nat): nat { if a <= b then a else b }

  /** The slices `text.slice(i, i + 120)` for `i` = `from`, `from + 120`, ... below `text.length`. */
  function ChunksFrom(text: seq<CodeUnit>, from: nat): seq<seq<CodeUnit>>
    decreases |text| - from
  {
    if from >= |text| then []
    else [text[from..Min(from + ChunkSize, |text|)]] + ChunksFrom(text, from + ChunkSize)
  }

  function Chunks(text: seq<CodeUnit>): seq<seq<CodeUnit>> {
    ChunksFrom(text, 0)
  }

  function Flatten(pieces: seq<seq<CodeUnit>>): seq<CodeUnit> {
    if pieces == [] then [] else pieces[0] + Flatten(pieces[1..])
  }

  /** `split_chunks(text)`. */
  method SplitChunks(text: seq<CodeUnit>) returns (out: seq<seq<CodeUnit>>)
    ensures out == Chunks(text)
  {
    out := [];
    var i: nat := 0;
    while i < |text|
      invariant out + ChunksFrom(text, i) == Chunks(text)
      decreases |text| - i
    {
      var piece := text[i..Min(i + ChunkSize, |text|)];
      SeqAssoc(out, [piece], ChunksFrom(text, i + ChunkSize));
      out := out + [piece];
      i := i + ChunkSize;
    }
    AppendEmpty(out);
  }

  /** The slices put back together are the text. */
  lemma {:induction false} ChunksFromFlatten(text: seq<CodeUnit>, from: nat)
    requires from <= |text|
    decreases |text| - from
    ensures Flatten(ChunksFrom(text, from)) == text[from..]
  {
    if from < |text| {
      var end := Min(from + ChunkSize, |text|);
      var rest := ChunksFrom(text, from + ChunkSize);
      TailOfCons(text[from..end], rest);
      if from + ChunkSize <= |text| {
        ChunksFromFlatten(text, from + ChunkSize);
      } else {
        assert rest == [];
      }
      assert text[from..] == text[from..end] + text[end..];
    }
  }

  /** Every slice holds 120 code units except the last, which holds 1 to 120; there are
      `ceil(n / 120)` of them. */
  lemma {:induction false} ChunksFromShape(text: seq<CodeUnit>, from: nat)
    decreases |text| - from
    ensures var c := ChunksFrom(text, from);
              && (forall k :: 0 <= k < |c| ==> 1 <= |c[k]| <= ChunkSize)
              && (forall k :: 0 <= k < |c| - 1 ==> |c[k]| == ChunkSize)
              && |c| == if from >= |text| then 0 else (|text| - from + ChunkSize - 1) / ChunkSize
  {
    if from < |text| {
      var c := ChunksFrom(text, from);
      var rest := ChunksFrom(text, from + ChunkSize);
      ChunksFromShape(text, from + ChunkSize);
      TailOfCons(text[from..Min(from + ChunkSize, |text|)], rest);
      assert forall k :: 1 <= k < |c| ==> c[k] == rest[k - 1];
      if from + ChunkSize < |text| {
        assert |c[0]| == ChunkSize;
      }
    }
  }

  lemma SplitChunksProperties(text: seq<CodeUnit>)
    ensures Flatten(Chunks(text)) == text
    ensures forall k :: 0 <= k < |Chunks(text)| ==> 1 <= |Chunks(text)[k]| <= ChunkSize
    ensures forall k :: 0 <= k < |Chunks(text)| - 1 ==> |Chunks(text)[k]| == ChunkSize
    ensures |Chunks(text)| == (|text| + ChunkSize - 1) / ChunkSize
    ensures Chunks(text) == [] <==> text == []
  {
    ChunksFromFlatten(text, 0);
    ChunksFromShape(text, 0);
  }

  // ---------------------------------------------------------------- byte totals

  /** `Buffer.byteLength` summed over the slices. */
  function Written(pieces: seq<seq<CodeUnit>>): nat {
    if pieces == [] then 0 else Utf8Length(pieces[0]) + Written(pieces[1..])
  }

  lemma {:induction false} WrittenSnoc(pieces: seq<seq<CodeUnit>>, p: seq<CodeUnit>)
    decreases |pieces|
    ensures Written(pieces + [p]) == Written(pieces) + Utf8Length(p)
  {
    if pieces == [] {
      assert pieces + [p] == [p];
      assert [p][1..] == [];
    } else {
      ConsAppend(pieces, [p]);
      WrittenSnoc(pieces[1..], p);
    }
  }

  /** No two consecutive slices split a surrogate pair between them. */
  predicate Aligned(pieces: seq<seq<CodeUnit>>) {
    forall k :: 0 <= k < |pieces| - 1 ==> !Straddles(pieces[k], pieces[k + 1])
  }

  /** When no cut falls inside a surrogate pair, the byte total is the byte length of the
      whole text. */
  lemma {:induction false} WrittenAligned(pieces: seq<seq<CodeUnit>>)
    requires forall k :: 0 <= k < |pieces| ==> |pieces[k]| > 0
    requires Aligned(pieces)
    decreases |pieces|
    ensures Written(pieces) == Utf8Length(Flatten(pieces))
  {
    if pieces != [] {
      var rest := pieces[1..];
      assert forall k :: 0 <= k < |rest| ==> rest[k] == pieces[k + 1];
      WrittenAligned(rest);
      if rest != [] {
        FlattenHead(rest);
      }
      Utf8LengthConcat(pieces[0], Flatten(rest));
    }
  }

  lemma FlattenHead(pieces: seq<seq<CodeUnit>>)
    requires |pieces| > 0 && |pieces[0]| > 0
    ensures |Flatten(pieces)| > 0 && Flatten(pieces)[0] == pieces[0][0]
  {
  }

  // ---------------------------------------------------------------- stream_create_file

  /** The progress events: `{chunk, written}` and the final `{done, file_path, size}`. */
  datatype FileEvent =
    | Chunk(chunk: seq<CodeUnit>, written: nat)
    | Done(filePath: string, size: nat)

  datatype AppendFault = AppendFault(at: nat, error: Thrown)

  /** Which file-system call fails, and with what: creating the workspace directory, creating
      the file's directory, opening the file, or appending the slice numbered `at`. */
  datatype Faults = Faults(
    mkdirBase: Option<Thrown>,
    mkdirParent: Option<Thrown>,
    open: Option<Thrown>,
    append: Option<AppendFault>)

  /** What the generator yields, and what it throws at the end if anything. */
  datatype StreamRun = StreamRun(events: seq<FileEvent>, failure: Option<Thrown>)

  /** One `{chunk, written}` event per slice written, `written` being the total so far. */
  function ChunkEvents(pieces: seq<seq<CodeUnit>>, k: nat): seq<FileEvent>
    requires k <= |pieces|
  {
    if k == 0 then [] else ChunkEvents(pieces, k - 1) + [Chunk(pieces[k - 1], Written(pieces[..k]))]
  }

  /** How many slices reach the file before the scripted append failure, if any. */
  function AppendedCount(f: Faults, n: nat): (k: nat)
    ensures k <= n
  {
    if f.append.Some? && f.append.value.at < n then f.append.value.at else n
  }

  /** The file's path once the checks before the open have passed. `guard` is the containment
      test applied: `stream_create_file` calls `safe_join`, which is `Paths.AsWritten`. */
  function Target(guard: Paths.Guard, cwd: seq<string>, base: string, relPath: string, f: Faults): Option<string> {
    if f.mkdirBase.Some? then None
    else
      match Paths.GuardedJoin(guard, cwd, base, relPath)
      case Err(_) => None
      case Ok(abs) => if f.mkdirParent.Some? || f.open.Some? then None else Some(abs)
  }

  /** The run on `content` as the UTF-16 code units of the JavaScript string, which may hold
      unpaired surrogates. */
  function StreamSpec(guard: Paths.Guard, cwd: seq<string>, base: string, relPath: string,
                      content: seq<CodeUnit>, f: Faults): StreamRun {
    if f.mkdirBase.Some? then StreamRun([], f.mkdirBase)
    else
      match Paths.GuardedJoin(guard, cwd, base, relPath)
      case Err(msg) => StreamRun([], Some(ToolExecutionError(Paths.InvalidPath, msg)))
      case Ok(abs) =>
        if f.mkdirParent.Some? then StreamRun([], f.mkdirParent)
        else if f.open.Some? then StreamRun([], Some(Rethrown(f.open.value)))
        else WriteRun(abs, Chunks(content), f)
  }

  /** From the open on: the slices reach the file until the scripted append failure. */
  function WriteRun(abs: string, pieces: seq<seq<CodeUnit>>, f: Faults): StreamRun {
    var k := AppendedCount(f, |pieces|);
    if k < |pieces| then StreamRun(ChunkEvents(pieces, k), Some(WriteFailed(f.append.value.error)))
    else StreamRun(ChunkEvents(pieces, k) + [Done(abs, Written(pieces))], None)
  }

  class Workspace {
    /** For each file opened for writing, the slices appended to it since. */
    var files: map<string, seq<seq<CodeUnit>>>
    var openHandles: nat

    constructor ()
      ensures files == map[] && openHandles == 0
    {
      files := map[];
      openHandles := 0;
    }

    /** `stream_create_file({rel_path, content})` run to the end, under the workspace
        directory `base`, with `guard` as the containment test. */
    method StreamCreateFile(guard: Paths.Guard, cwd: seq<string>, base: string, relPath: string,
                            content: seq<CodeUnit>, faults: Faults)
      returns (events: seq<FileEvent>, failure: Option<Thrown>)
      modifies this
      ensures StreamRun(events, failure) == StreamSpec(guard, cwd, base, relPath, content, faults)
      ensures openHandles == old(openHandles)
      ensures files == match Target(guard, cwd, base, relPath, faults)
                       case None => old(files)
                       case Some(abs) =>
                         var pieces := Chunks(content);
                         old(files)[abs := pieces[..AppendedCount(faults, |pieces|)]]
    {
      events := [];
      if faults.mkdirBase.Some? {
        failure := faults.mkdirBase;
        return;
      }
      var joined := Paths.GuardedJoin(guard, cwd, base, relPath);
      if joined.Err? {
        failure := Some(ToolExecutionError(Paths.InvalidPath, joined.error));
        return;
      }
      var abs := joined.value;
      if faults.mkdirParent.Some? {
        failure := faults.mkdirParent;
        return;
      }
      if faults.open.Some? {
        // the handle was never obtained: nothing to close
        failure := Some(Rethrown(faults.open.value));
        return;
      }
      var parts := SplitChunks(content);
      events, failure := WriteFile(abs, parts, faults);
    }

    /** Opening `abs` for writing, appending the slices, closing the handle. */
    method WriteFile(abs: string, parts: seq<seq<CodeUnit>>, faults: Faults)
      returns (events: seq<FileEvent>, failure: Option<Thrown>)
      modifies this
      ensures StreamRun(events, failure) == WriteRun(abs, parts, faults)
      ensures openHandles == old(openHandles)
      ensures files == old(files)[abs := parts[..AppendedCount(faults, |parts|)]]
    {
      events := [];
      files := files[abs := []];
      openHandles := openHandles + 1;
      var written: nat := 0;
      var i := 0;
      failure := None;
      while i < |parts|
        invariant i <= AppendedCount(faults, |parts|)
        invariant failure.None?
        invariant written == Written(parts[..i])
        invariant events == ChunkEvents(parts, i)
        invariant files == old(files)[abs := parts[..i]] && openHandles == old(openHandles) + 1
      {
        if faults.append.Some? && faults.append.value.at == i {
          failure := Some(Rethrown(WriteFailed(faults.append.value.error)));
          break;
        }
        TakeSnocAppend(parts, i);
        files := files[abs := files[abs] + [parts[i]]];
        WrittenSnoc(parts[..i], parts[i]);
        written := written + Utf8Length(parts[i]);
        events := events + [Chunk(parts[i], written)];
        i := i + 1;
      }
      if failure.None? {
        TakeAll(parts);
        events := events + [Done(abs, written)];
      }
      // finally: the handle is closed
      openHandles := openHandles - 1;
    }
  }

  // ---------------------------------------------------------------- what the run promises

  lemma {:induction false} ChunkEventsAt(pieces: seq<seq<CodeUnit>>, k: nat)
    requires k <= |pieces|
    decreases k
    ensures |ChunkEvents(pieces, k)| == k
    ensures forall j :: 0 <= j < k ==> ChunkEvents(pieces, k)[j] == Chunk(pieces[j], Written(pieces[..j + 1]))
  {
    if k > 0 {
      ChunkEventsAt(pieces, k - 1);
    }
  }

  /** Once the file is open, the slices before the failing append, or all of them, are
      reported in order with the byte total so far, and `done` follows only when none failed. */
  lemma WriteRunShape(abs: string, pieces: seq<seq<CodeUnit>>, f: Faults)
    ensures var run := WriteRun(abs, pieces, f);
            var k := AppendedCount(f, |pieces|);
            && (run.failure.None? <==> k == |pieces|)
            && |run.events| == (if run.failure.None? then k + 1 else k)
            && (forall j :: 0 <= j < k ==> run.events[j] == Chunk(pieces[j], Written(pieces[..j + 1])))
            && (run.failure.None? ==> run.events[k] == Done(abs, Written(pieces)))
  {
    ChunkEventsAt(pieces, AppendedCount(f, |pieces|));
  }

  /** A successful run yields every slice in order, each with the byte total up to and
      including it, then one `done` carrying the final total. */
  lemma StreamSuccess(g: Paths.Guard, cwd: seq<string>, base: string, relPath: string, content: seq<CodeUnit>, f: Faults)
    requires StreamSpec(g, cwd, base, relPath, content, f).failure.None?
    ensures var run := StreamSpec(g, cwd, base, relPath, content, f);
            var pieces := Chunks(content);
            && Paths.GuardedJoin(g, cwd, base, relPath).Ok?
            && |run.events| == |pieces| + 1
            && (forall j :: 0 <= j < |pieces| ==> run.events[j] == Chunk(pieces[j], Written(pieces[..j + 1])))
            && run.events[|pieces|] == Done(Paths.GuardedJoin(g, cwd, base, relPath).value, Written(pieces))
  {
    WriteRunShape(Paths.GuardedJoin(g, cwd, base, relPath).value, Chunks(content), f);
  }

  /** Only a successful run yields `done`, and it yields it last. */
  lemma DoneOnlyAtEnd(g: Paths.Guard, cwd: seq<string>, base: string, relPath: string, content: seq<CodeUnit>, f: Faults)
    ensures var run := StreamSpec(g, cwd, base, relPath, content, f);
            forall j :: 0 <= j < |run.events| ==>
              (run.events[j].Done? <==> run.failure.None? && j == |run.events| - 1)
  {
    if Target(g, cwd, base, relPath, f).Some? {
      WriteRunShape(Target(g, cwd, base, relPath, f).value, Chunks(content), f);
    }
  }

  /** A path the guard refuses fails with `invalid_path` before anything is opened or yielded. */
  lemma RejectedPathYieldsNothing(g: Paths.Guard, cwd: seq<string>, base: string, relPath: string, content: seq<CodeUnit>, f: Faults)
    requires f.mkdirBase.None? && Paths.GuardedJoin(g, cwd, base, relPath).Err?
    ensures StreamSpec(g, cwd, base, relPath, content, f) ==
              StreamRun([], Some(ToolExecutionError("invalid_path", "invalid_path")))
    ensures Target(g, cwd, base, relPath, f).None?
  {
  }

  /** A failed append ends the run with `write_failed`: the slices before it were reported,
      and neither it nor any later one. */
  lemma AppendFailureStops(g: Paths.Guard, cwd: seq<string>, base: string, relPath: string, content: seq<CodeUnit>, f: Faults)
    requires Target(g, cwd, base, relPath, f).Some?
    requires f.append.Some? && f.append.value.at < |Chunks(content)|
    ensures var run := StreamSpec(g, cwd, base, relPath, content, f);
            var pieces := Chunks(content);
            && |run.events| == f.append.value.at
            && (forall j :: 0 <= j < |run.events| ==> run.events[j] == Chunk(pieces[j], Written(pieces[..j + 1])))
            && run.failure == Some(WriteFailed(f.append.value.error))
  {
    WriteRunShape(Target(g, cwd, base, relPath, f).value, Chunks(content), f);
  }

  /** Every failure raised after the workspace directory exists is a `ToolExecutionError`
      with one of the three codes, except a failure to create the file's own directory,
      which escapes unwrapped. */
  lemma FailuresAreTyped(g: Paths.Guard, cwd: seq<string>, base: string, relPath: string, content: seq<CodeUnit>, f: Faults)
    requires f.mkdirBase.None? && f.mkdirParent.None?
    requires StreamSpec(g, cwd, base, relPath, content, f).failure.Some?
    ensures var e := StreamSpec(g, cwd, base, relPath, content, f).failure.value;
            && e.kind == ToolExecution
            && (e.code == Some("invalid_path") || e.code == Some("write_failed") || e.code == Some("tool_error")
                || (f.open.Some? && e == f.open.value))
  {
  }

  /** When no slice boundary splits a surrogate pair, the reported size is the UTF-8 size
      of the content, an unpaired surrogate counting three bytes. */
  lemma SizeOfAlignedContent(g: Paths.Guard, cwd: seq<string>, base: string, relPath: string, content: seq<CodeUnit>, f: Faults)
    requires StreamSpec(g, cwd, base, relPath, content, f).failure.None?
    requires Aligned(Chunks(content))
    ensures var run := StreamSpec(g, cwd, base, relPath, content, f);
            && |run.events| > 0 && Paths.GuardedJoin(g, cwd, base, relPath).Ok?
            && run.events[|run.events| - 1] == Done(Paths.GuardedJoin(g, cwd, base, relPath).value, Utf8Length(content))
  {
    var pieces := Chunks(content);
    StreamSuccess(g, cwd, base, relPath, content, f);
    SplitChunksProperties(content);
    WrittenAligned(pieces);
  }

  /** For content that is the encoding of a string of Unicode characters, that size is the
      string's UTF-8 byte length. */
  lemma SizeOfAlignedText(g: Paths.Guard, cwd: seq<string>, base: string, relPath: string, text: string, f: Faults)
    requires StreamSpec(g, cwd, base, relPath, Encode(text), f).failure.None?
    requires Aligned(Chunks(Encode(text)))
    ensures var run := StreamSpec(g, cwd, base, relPath, Encode(text), f);
            && |run.events| > 0
            && run.events[|run.events| - 1] == Done(Paths.GuardedJoin(g, cwd, base, relPath).value, Utf8Bytes(text))
  {
    SizeOfAlignedContent(g, cwd, base, relPath, Encode(text), f);
    Utf8LengthOfEncode(text);
  }

  const NoFaults := Faults(None, None, None, None)

  /** A lone high surrogate, which `JSON.parse` lets through, is written as one slice and
      counted as the three bytes `Buffer.byteLength` gives the replacement character. */
  lemma LoneSurrogateCountsThree(g: Paths.Guard, cwd: seq<string>, base: string, relPath: string)
    requires Paths.GuardedJoin(g, cwd, base, relPath).Ok?
    ensures StreamSpec(g, cwd, base, relPath, [0xD800], NoFaults) ==
              StreamRun([Chunk([0xD800], 3), Done(Paths.GuardedJoin(g, cwd, base, relPath).value, 3)], None)
  {
    var text: seq<CodeUnit> := [0xD800];
    var pieces := Chunks(text);
    assert ChunksFrom(text, ChunkSize) == [];
    assert text[0..Min(ChunkSize, |text|)] == text;
    assert pieces == [text] + [];
    assert Written(pieces) == 3 by {
      WrittenSnoc([], [0xD800]);
    }
    WriteRunShape(Paths.GuardedJoin(g, cwd, base, relPath).value, pieces, NoFaults);
  }

  /** With `safe_join` as written, a relative path into a sibling directory whose name extends
      the workspace's name is written there. */
  lemma SiblingWrittenAsWritten(cwd: seq<string>, content: seq<CodeUnit>)
    ensures Target(Paths.AsWritten, cwd, "/ws", "../ws2/f", NoFaults) == Some("/ws2/f")
    ensures var run := StreamSpec(Paths.AsWritten, cwd, "/ws", "../ws2/f", content, NoFaults);
            && run.failure.None?
            && run.events[|run.events| - 1] == Done("/ws2/f", Written(Chunks(content)))
  {
    Paths.SiblingEscapesAsWritten(cwd);
    SiblingRun(Paths.AsWritten, cwd, content);
  }

  /** The corrected test refuses that path before anything is opened. */
  lemma SiblingRefusedCorrected(cwd: seq<string>, content: seq<CodeUnit>)
    ensures Target(Paths.Corrected, cwd, "/ws", "../ws2/f", NoFaults).None?
    ensures StreamSpec(Paths.Corrected, cwd, "/ws", "../ws2/f", content, NoFaults) ==
              StreamRun([], Some(ToolExecutionError("invalid_path", "invalid_path")))
  {
    Paths.SiblingRejected(cwd);
    RejectedPathYieldsNothing(Paths.Corrected, cwd, "/ws", "../ws2/f", content, NoFaults);
  }

  lemma SiblingRun(g: Paths.Guard, cwd: seq<string>, content: seq<CodeUnit>)
    requires Paths.GuardedJoin(g, cwd, "/ws", "../ws2/f") == Ok("/ws2/f")
    ensures Target(g, cwd, "/ws", "../ws2/f", NoFaults) == Some("/ws2/f")
    ensures var run := StreamSpec(g, cwd, "/ws", "../ws2/f", content, NoFaults);
            && run.failure.None?
            && run.events[|run.events| - 1] == Done("/ws2/f", Written(Chunks(content)))
  {
    WriteRunShape("/ws2/f", Chunks(content), NoFaults);
  }
}
