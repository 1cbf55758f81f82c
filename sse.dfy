/** `sse_iter`: the reader of the provider's `text/event-stream` response. Records end at a
    blank line ("\n\n"); every line of a record that starts with `data:` carries one JSON
    value of its own (data lines are not joined, unlike the full format of section 9.2 of the
    WHATWG HTML Living Standard). The reads arrive as already decoded text. */
module Sse {
  import opened Wrappers
  import opened JsString
  import opened Json
  import opened SeqLemmas

  const RecordEnd := "\n\n"

  /** A record separator starts at `i`. */
  predicate EndAt(s: string, i: nat) {
    i + 1 < |s| && s[i] == '\n' && s[i + 1] == '\n'
  }

  /** `buffer.indexOf("\n\n", from)`. */
  function FindEnd(s: string, from: nat): (r: Option<nat>)
    decreases |s| - from
    ensures r.Some? ==> from <= r.value && EndAt(s, r.value)
  {
    if from + 1 >= |s| then None
    else if s[from] == '\n' && s[from + 1] == '\n' then Some(from)
    else FindEnd(s, from + 1)
  }

  /** The separator found is the first one, and None means there is none. */
  lemma {:induction false} FindEndLeast(s: string, from: nat)
    decreases |s| - from
    ensures FindEnd(s, from).Some? ==> forall k :: from <= k < FindEnd(s, from).value ==> !EndAt(s, k)
    ensures FindEnd(s, from).None? ==> forall k :: from <= k ==> !EndAt(s, k)
  {
    if from + 1 < |s| && !(s[from] == '\n' && s[from + 1] == '\n') {
      FindEndLeast(s, from + 1);
    }
  }

  /** The separator search is `indexOf` with the two-character separator. */
  lemma FindEndIsIndexOf(s: string)
    ensures FindEnd(s, 0) == IndexOf(s, RecordEnd)
  {
    FindEndLeast(s, 0);
    IndexOfFromLeast(s, RecordEnd, 0);
    forall k: nat | k + 1 < |s|
      ensures EndAt(s, k) <==> OccursAt(s, RecordEnd, k)
    {
      if EndAt(s, k) {
        assert s[k..k + 2] == RecordEnd;
      }
      if OccursAt(s, RecordEnd, k) {
        assert s[k..k + 2][0] == s[k] && s[k..k + 2][1] == s[k + 1];
      }
    }
    match FindEnd(s, 0)
    case Some(i) =>
      assert OccursAt(s, RecordEnd, i) by {
        assert s[i..i + 2] == RecordEnd;
      }
    case None =>
  }

  /** What one line yields: the trimmed text after `data:`, parsed, unless it is empty,
      the `[DONE]` marker, or not JSON. */
  function LineItems(line: string, parse: JsonParser): (r: seq<Json>)
    ensures |r| <= 1
    ensures |r| == 1 <==>
              && StartsWith(line, "data:")
              && Trim(line[5..]) != "" && Trim(line[5..]) != "[DONE]"
              && parse(Trim(line[5..])).Some?
    ensures |r| == 1 ==> r[0] == parse(Trim(line[5..])).value
  {
    if !StartsWith(line, "data:") then []
    else
      var data := Trim(line[5..]);
      if data == "" || data == "[DONE]" then []
      else
        match parse(data)
        case Some(v) => [v]
        case None => []
  }

  function LinesItems(lines: seq<string>, parse: JsonParser): seq<Json> {
    if |lines| == 0 then [] else LinesItems(lines[..|lines| - 1], parse) + LineItems(lines[|lines| - 1], parse)
  }

  /** The items of one record, line by line. */
  function RecordItems(record: string, parse: JsonParser): seq<Json> {
    LinesItems(Split(record, '\n'), parse)
  }

  /** A text cut into the complete records it holds and the unterminated remainder. */
  datatype Framing = Framing(records: seq<string>, rest: string)

  function Frame(s: string): Framing
    decreases |s|
  {
    match FindEnd(s, 0)
    case None => Framing([], s)
    case Some(i) =>
      var f := Frame(s[i + 2..]);
      Framing([s[..i]] + f.records, f.rest)
  }

  function RecordsItems(records: seq<string>, parse: JsonParser): seq<Json> {
    if |records| == 0 then [] else RecordItems(records[0], parse) + RecordsItems(records[1..], parse)
  }

  /** The reads, glued together. */
  function Concat(received: seq<string>): string {
    if |received| == 0 then "" else Concat(received[..|received| - 1]) + received[|received| - 1]
  }

  /** Everything the generator yields: the items of every complete record and then, when
      the remainder is not blank, the items of the remainder. */
  function SseItems(received: seq<string>, parse: JsonParser): seq<Json> {
    var f := Frame(Concat(received));
    RecordsItems(f.records, parse) + (if Trim(f.rest) != "" then RecordItems(f.rest, parse) else [])
  }

  // ---------------------------------------------------------------- the generator

  /** The `for (const line of lines)` loop over one record. */
  method ProcessRecord(record: string, parse: JsonParser) returns (items: seq<Json>)
    ensures items == RecordItems(record, parse)
  {
    var lines := Split(record, '\n');
    items := [];
    var k := 0;
    while k < |lines|
      invariant 0 <= k <= |lines|
      invariant items == LinesItems(lines[..k], parse)
    {
      var line := lines[k];
      TakeSnoc(lines, k);
      if StartsWith(line, "data:") {
        var data := Trim(line[5..]);
        if data != "" && data != "[DONE]" {
          match parse(data)
          case Some(v) => items := items + [v];
          case None =>
        }
      }
      k := k + 1;
    }
    TakeAll(lines);
  }

  method SseIter(received: seq<string>, parse: JsonParser) returns (items: seq<Json>)
    ensures items == SseItems(received, parse)
    ensures items == Streamed(received, parse)
  {
    var buf := "";
    items := [];
    var r := 0;
    ghost var text := "";
    while r < |received|
      invariant 0 <= r <= |received|
      invariant text == Concat(received[..r])
      invariant buf == Frame(text).rest
      invariant items == RecordsItems(Frame(text).records, parse)
    {
      FrameAppend(text, received[r]);
      RecordsItemsConcat(Frame(text).records, Frame(buf + received[r]).records, parse);
      var more;
      more, buf := DrainRecords(buf + received[r], parse);
      items := items + more;
      ConcatSnoc(received, r);
      text := text + received[r];
      r := r + 1;
    }
    TakeAll(received);
    if Trim(buf) != "" {
      var more := ProcessRecord(buf, parse);
      items := items + more;
    } else {
      AppendEmpty(items);
    }
    StreamedIsFramed(received, parse);
  }

  /** The inner `while ((idx = buf.indexOf("\n\n")) !== -1)` loop: every complete record is
      cut off the front of the buffer and processed. */
  method DrainRecords(start: string, parse: JsonParser) returns (items: seq<Json>, buf: string)
    ensures items == RecordsItems(Frame(start).records, parse)
    ensures buf == Frame(start).rest
  {
    buf := start;
    items := [];
    PrependEmpty(RecordsItems(Frame(start).records, parse));
    while FindEnd(buf, 0).Some?
      decreases |buf|
      invariant Frame(buf).rest == Frame(start).rest
      invariant items + RecordsItems(Frame(buf).records, parse) == RecordsItems(Frame(start).records, parse)
    {
      var idx := FindEnd(buf, 0).value;
      var chunk := buf[..idx];
      var more := ProcessRecord(chunk, parse);
      DrainStep(buf, idx, items, more, parse);
      buf := buf[idx + 2..];
      items := items + more;
    }
    DrainDone(buf, items, parse);
  }

  /** Cutting the first record off the buffer and adding its items keeps what is still to come. */
  lemma DrainStep(buf: string, idx: nat, items: seq<Json>, more: seq<Json>, parse: JsonParser)
    requires FindEnd(buf, 0) == Some(idx)
    requires more == RecordItems(buf[..idx], parse)
    ensures idx + 2 <= |buf|
    ensures Frame(buf[idx + 2..]).rest == Frame(buf).rest
    ensures items + more + RecordsItems(Frame(buf[idx + 2..]).records, parse) ==
            items + RecordsItems(Frame(buf).records, parse)
  {
    FrameUnfold(buf, idx);
    RecordsItemsCons(buf[..idx], Frame(buf[idx + 2..]).records, parse);
    SeqAssoc(items, more, RecordsItems(Frame(buf[idx + 2..]).records, parse));
  }

  /** A buffer without a separator holds no more records. */
  lemma DrainDone(buf: string, items: seq<Json>, parse: JsonParser)
    requires FindEnd(buf, 0).None?
    ensures items + RecordsItems(Frame(buf).records, parse) == items
  {
    FrameNone(buf);
    AppendEmpty(items);
  }

  lemma ConcatSnoc(received: seq<string>, r: nat)
    requires r < |received|
    ensures Concat(received[..r + 1]) == Concat(received[..r]) + received[r]
  {
    TakeSnoc(received, r);
  }

  lemma RecordsItemsCons(c: string, rest: seq<string>, parse: JsonParser)
    ensures RecordsItems([c] + rest, parse) == RecordItems(c, parse) + RecordsItems(rest, parse)
  {
    TailOfCons(c, rest);
  }

  // ---------------------------------------------------------------- properties

  lemma {:induction false} RecordsItemsConcat(a: seq<string>, b: seq<string>, parse: JsonParser)
    decreases |a|
    ensures RecordsItems(a + b, parse) == RecordsItems(a, parse) + RecordsItems(b, parse)
  {
    if |a| > 0 {
      assert (a + b)[1..] == a[1..] + b;
      RecordsItemsConcat(a[1..], b, parse);
    } else {
      assert a + b == b;
    }
  }

  /** The first record of a text that holds a separator. */
  lemma FrameUnfold(s: string, i: nat)
    requires FindEnd(s, 0) == Some(i)
    ensures i + 2 <= |s|
    ensures Frame(s) == Framing([s[..i]] + Frame(s[i + 2..]).records, Frame(s[i + 2..]).rest)
  {
    assert EndAt(s, i);
    var f := Frame(s[i + 2..]);
    assert Frame(s) == Framing([s[..i]] + f.records, f.rest);
  }

  lemma FrameNone(s: string)
    requires FindEnd(s, 0).None?
    ensures Frame(s) == Framing([], s)
  {
  }

  /** A separator inside `x` is still the first one once text is appended. */
  lemma FindEndExtend(x: string, y: string)
    requires FindEnd(x, 0).Some?
    ensures FindEnd(x + y, 0) == FindEnd(x, 0)
  {
    var i := FindEnd(x, 0).value;
    FindEndLeast(x, 0);
    FindEndLeast(x + y, 0);
    assert EndAt(x + y, i);
    forall k | 0 <= k < i
      ensures !EndAt(x + y, k)
    {
      assert !EndAt(x, k);
    }
  }

  /** Framing a text in two steps, carrying the unterminated remainder of the first part into
      the second, is framing it in one step. */
  lemma {:induction false} FrameAppend(x: string, y: string)
    decreases |x|
    ensures Frame(x + y).records == Frame(x).records + Frame(Frame(x).rest + y).records
    ensures Frame(x + y).rest == Frame(Frame(x).rest + y).rest
  {
    var found := FindEnd(x, 0);
    if found.None? {
      FrameNone(x);
    } else {
      var i := found.value;
      FindEndExtend(x, y);
      FrameAppend(x[i + 2..], y);
      var tail := x[i + 2..];
      assert (x + y)[..i] == x[..i];
      assert (x + y)[i + 2..] == tail + y;
      FrameAppendStep(x, y, i, tail);
    }
  }

  lemma FrameAppendStep(x: string, y: string, i: nat, tail: string)
    requires FindEnd(x, 0) == Some(i) && FindEnd(x + y, 0) == Some(i)
    requires i + 2 <= |x| && tail == x[i + 2..] && (x + y)[..i] == x[..i] && (x + y)[i + 2..] == tail + y
    requires Frame(tail + y).records == Frame(tail).records + Frame(Frame(tail).rest + y).records
    requires Frame(tail + y).rest == Frame(Frame(tail).rest + y).rest
    ensures Frame(x + y).records == Frame(x).records + Frame(Frame(x).rest + y).records
    ensures Frame(x + y).rest == Frame(Frame(x).rest + y).rest
  {
    var fx, fxy, ft, fty := Frame(x), Frame(x + y), Frame(tail), Frame(tail + y);
    FrameUnfold(x, i);
    FrameUnfold(x + y, i);
    assert fx == Framing([x[..i]] + ft.records, ft.rest);
    assert fxy == Framing([x[..i]] + fty.records, fty.rest);
    var more := Frame(ft.rest + y).records;
    SeqAssoc([x[..i]], ft.records, more);
  }

  /** The generator between reads: what it has yielded so far and the buffer it keeps. */
  datatype Reader = Reader(yielded: seq<Json>, buf: string)

  /** One turn of the outer loop: the read is added to the buffer, and every record it
      completes is yielded and cut off. */
  function Feed(st: Reader, read: string, parse: JsonParser): Reader {
    var f := Frame(st.buf + read);
    Reader(st.yielded + RecordsItems(f.records, parse), f.rest)
  }

  /** The outer loop over the reads, one read at a time. */
  function FeedAll(received: seq<string>, parse: JsonParser): Reader {
    if |received| == 0 then Reader([], "")
    else Feed(FeedAll(received[..|received| - 1], parse), received[|received| - 1], parse)
  }

  /** What the generator yields over the reads as they arrive: the loop, then the trailing
      record once the input ends. */
  function Streamed(received: seq<string>, parse: JsonParser): seq<Json> {
    var st := FeedAll(received, parse);
    st.yielded + (if Trim(st.buf) != "" then RecordItems(st.buf, parse) else [])
  }

  /** After any number of reads, the loop has yielded the items of the complete records of
      everything read, and buffers the unterminated remainder. */
  lemma {:induction false} FeedAllFrames(received: seq<string>, parse: JsonParser)
    decreases |received|
    ensures var f := Frame(Concat(received));
            FeedAll(received, parse) == Reader(RecordsItems(f.records, parse), f.rest)
  {
    if |received| > 0 {
      var prefix := received[..|received| - 1];
      var read := received[|received| - 1];
      FeedAllFrames(prefix, parse);
      var fp := Frame(Concat(prefix));
      FrameAppend(Concat(prefix), read);
      RecordsItemsConcat(fp.records, Frame(fp.rest + read).records, parse);
    }
  }

  lemma StreamedIsFramed(received: seq<string>, parse: JsonParser)
    ensures Streamed(received, parse) == SseItems(received, parse)
  {
    FeedAllFrames(received, parse);
  }

  /** Where the reads are cut does not matter: two runs of the loop over reads with the same
      concatenation yield the same items and end with the same buffer. */
  lemma ReadBoundariesIrrelevant(a: seq<string>, b: seq<string>, parse: JsonParser)
    requires Concat(a) == Concat(b)
    ensures FeedAll(a, parse) == FeedAll(b, parse)
    ensures Streamed(a, parse) == Streamed(b, parse)
  {
    FeedAllFrames(a, parse);
    FeedAllFrames(b, parse);
  }

  /** The records and the remainder, rejoined with the record separator, are the text the
      framer was given. */
  lemma {:induction false} FrameJoin(s: string)
    decreases |s|
    ensures Join(Frame(s).records + [Frame(s).rest], RecordEnd) == s
  {
    match FindEnd(s, 0)
    case None =>
      FrameNone(s);
    case Some(i) =>
      FrameUnfold(s, i);
      FrameJoin(s[i + 2..]);
      var f := Frame(s[i + 2..]);
      FrameJoinStep(s, i, f);
  }

  lemma FrameJoinStep(s: string, i: nat, f: Framing)
    requires i + 2 <= |s| && s[i] == '\n' && s[i + 1] == '\n'
    requires Join(f.records + [f.rest], RecordEnd) == s[i + 2..]
    ensures Join(([s[..i]] + f.records) + [f.rest], RecordEnd) == s
  {
    var rest := f.records + [f.rest];
    SeqAssoc([s[..i]], f.records, [f.rest]);
    JoinCons(s[..i], rest, RecordEnd);
    assert s == s[..i] + RecordEnd + s[i + 2..];
  }

  /** No complete record contains a separator. */
  lemma {:induction false} FrameRecordsHaveNoEnd(s: string)
    decreases |s|
    ensures forall k :: 0 <= k < |Frame(s).records| ==> FindEnd(Frame(s).records[k], 0).None?
  {
    match FindEnd(s, 0)
    case None =>
      FrameNone(s);
    case Some(i) =>
      FrameUnfold(s, i);
      FrameRecordsHaveNoEnd(s[i + 2..]);
      FirstRecordHasNoEnd(s, i);
      var f := Frame(s[i + 2..]);
      forall k | 0 <= k < |Frame(s).records|
        ensures FindEnd(Frame(s).records[k], 0).None?
      {
        if k > 0 {
          assert Frame(s).records[k] == f.records[k - 1];
        }
      }
  }

  lemma FirstRecordHasNoEnd(s: string, i: nat)
    requires FindEnd(s, 0) == Some(i)
    ensures FindEnd(s[..i], 0).None?
  {
    FindEndLeast(s, 0);
    FindEndLeast(s[..i], 0);
    forall k: nat
      ensures !EndAt(s[..i], k)
    {
      if k + 1 < i {
        assert !EndAt(s, k);
        assert s[..i][k] == s[k] && s[..i][k + 1] == s[k + 1];
      }
    }
  }

  /** Every `data:` line of a record is an item of its own, in order. */
  lemma RecordOfLines(lines: seq<string>, parse: JsonParser)
    requires |lines| >= 1
    requires forall k :: 0 <= k < |lines| ==> '\n' !in lines[k]
    ensures RecordItems(Join(lines, "\n"), parse) == LinesItems(lines, parse)
  {
    JoinSplit(lines, '\n');
  }

  predicate Blank(pad: string) {
    forall k :: 0 <= k < |pad| ==> IsWhitespace(pad[k])
  }

  /** The end-of-stream marker, however it is padded, yields nothing, whatever the parser. */
  lemma DoneYieldsNothing(pad: string, parse: JsonParser)
    requires Blank(pad)
    ensures LineItems("data:" + pad + "[DONE]", parse) == []
  {
    var line := "data:" + pad + "[DONE]";
    assert line[..5] == "data:";
    assert line[5..] == pad + "[DONE]";
    TrimStartSkips(pad, "[DONE]");
    assert TrimEnd("[DONE]") == "[DONE]";
  }

  /** A `data:` line with nothing but blanks after it yields nothing. */
  lemma BlankDataYieldsNothing(pad: string, parse: JsonParser)
    requires Blank(pad)
    ensures LineItems("data:" + pad, parse) == []
  {
    var line := "data:" + pad;
    assert line[..5] == "data:";
    assert line[5..] == pad;
    TrimEmptyIff(pad);
  }

  lemma {:induction false} TrimStartSkips(pad: string, t: string)
    requires Blank(pad) && t != [] && !IsWhitespace(t[0])
    decreases |pad|
    ensures TrimStart(pad + t) == t
  {
    if pad != [] {
      assert (pad + t)[1..] == pad[1..] + t;
      TrimStartSkips(pad[1..], t);
    } else {
      assert pad + t == t;
    }
  }
}
