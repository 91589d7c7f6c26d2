/** The newline-delimited JSON codec of the stdio transport.

    A line is read from a buffered reader that hands out arbitrary chunks. The loop is proved
    to depend only on the bytes, not on the chunks, and reading a whole stream is proved to be
    splitting it at newlines.
 */
module LineCodec {
  import opened Common

  type Byte = b: int | 0 <= b < 256

  const NEWLINE: Byte := 10

  /** What follows the last byte of the stream. */
  datatype Ending = AtEof | IoFailure

  datatype Outcome = Frame(bytes: seq<Byte>) | EndOfInput | LineTooLong | IoError

  ghost predicate NewlineFree(bytes: seq<Byte>) { forall k :: 0 <= k < |bytes| ==> bytes[k] != NEWLINE }

  /** Position of the first newline at or after `i`, or the length when there is none. */
  function NewlineFrom(bytes: seq<Byte>, i: nat): (n: nat)
    requires i <= |bytes|
    ensures i <= n <= |bytes| && (n < |bytes| ==> bytes[n] == NEWLINE)
    ensures forall k :: i <= k < n ==> bytes[k] != NEWLINE
    decreases |bytes| - i
  {
    if i == |bytes| || bytes[i] == NEWLINE then i else NewlineFrom(bytes, i + 1)
  }

  function LineEnd(bytes: seq<Byte>): nat { NewlineFrom(bytes, 0) }

  lemma LineEndAt(line: seq<Byte>, rest: seq<Byte>)
    requires NewlineFree(line) && (rest == [] || rest[0] == NEWLINE)
    ensures LineEnd(line + rest) == |line|
  {
    assert rest != [] ==> (line + rest)[|line|] == NEWLINE;
    assert forall k :: 0 <= k < |line| ==> (line + rest)[k] == line[k];
  }

  // ---------------------------------------------------------------- reading one frame

  /** What one terminated line reads as. */
  function Classify(max: nat, line: seq<Byte>): Outcome {
    if |line| <= max then Frame(line) else LineTooLong
  }

  /** What an unterminated remainder reads as. With a zero limit nothing is ever copied, so
      a non-empty remainder is indistinguishable from a clean end. */
  function ClassifyTail(max: nat, tail: seq<Byte>, ending: Ending): Outcome {
    if ending == IoFailure then IoError
    else if tail == [] || max == 0 then EndOfInput
    else Classify(max, tail)
  }

  /** One read on the remaining bytes: the outcome and what is left. */
  function ReadLine(max: nat, bytes: seq<Byte>, ending: Ending): (Outcome, seq<Byte>) {
    var n := LineEnd(bytes);
    if n < |bytes| then (Classify(max, bytes[..n]), bytes[n + 1..])
    else (ClassifyTail(max, bytes, ending), [])
  }

  lemma ReadTerminated(max: nat, line: seq<Byte>, rest: seq<Byte>, ending: Ending)
    requires NewlineFree(line) && rest != [] && rest[0] == NEWLINE
    ensures ReadLine(max, line + rest, ending) == (Classify(max, line), rest[1..])
  {
    LineEndAt(line, rest);
    assert (line + rest)[..|line|] == line && (line + rest)[|line| + 1..] == rest[1..];
  }

  lemma ReadUnterminated(max: nat, line: seq<Byte>, ending: Ending)
    requires NewlineFree(line)
    ensures ReadLine(max, line, ending) == (ClassifyTail(max, line, ending), [])
  {
    LineEndAt(line, []);
    assert line + [] == line;
  }

  /** What the read loop keeps of the part of a line seen so far. */
  ghost predicate Kept(max: nat, line: seq<Byte>, frame: seq<Byte>, tooLong: bool) {
    && NewlineFree(line)
    && (tooLong <==> |line| > max)
    && frame == line[..Min(max, |line|)]
  }

  /** Copies what still fits of one more stretch of the line. */
  method Absorb(max: nat, frame: seq<Byte>, tooLong: bool, content: seq<Byte>, ghost line: seq<Byte>)
    returns (frame': seq<Byte>, tooLong': bool)
    requires Kept(max, line, frame, tooLong) && NewlineFree(content)
    ensures Kept(max, line + content, frame', tooLong')
  {
    frame', tooLong' := frame, tooLong;
    if !tooLong {
      var room := max - |frame|;
      frame' := frame + content[..Min(|content|, room)];
      tooLong' := |content| > room;
    } else {
      assert (line + content)[..max] == line[..max];
    }
  }

  /** The outcome of a line whose newline has been reached. */
  lemma KeptClassifies(max: nat, line: seq<Byte>, frame: seq<Byte>, tooLong: bool)
    requires Kept(max, line, frame, tooLong)
    ensures Classify(max, line) == if tooLong then LineTooLong else Frame(frame)
    ensures ClassifyTail(max, line, AtEof)
      == if frame == [] then EndOfInput else if tooLong then LineTooLong else Frame(frame)
  {
    if !tooLong { assert frame == line; }
  }

  function Flatten(chunks: seq<seq<Byte>>): seq<Byte> {
    if chunks == [] then [] else chunks[0] + Flatten(chunks[1..])
  }

  /** A buffered reader over a stream that arrives in chunks of any size. */
  class ChunkedReader {
    var chunks: seq<seq<Byte>>
    const ending: Ending

    constructor (chunks: seq<seq<Byte>>, ending: Ending)
      requires [] !in chunks
      ensures Valid() && Remaining() == Flatten(chunks) && this.ending == ending
    {
      this.chunks, this.ending := chunks, ending;
    }

    ghost predicate Valid() reads this { [] !in chunks }

    ghost function Remaining(): seq<Byte> reads this { Flatten(chunks) }

    /** The buffered bytes; empty exactly at a clean end of input. */
    method FillBuf() returns (available: seq<Byte>, failed: bool)
      requires Valid()
      ensures failed <==> chunks == [] && ending == IoFailure
      ensures available == [] <==> chunks == []
      ensures chunks != [] ==> available == chunks[0]
    {
      if chunks == [] { return [], ending == IoFailure; }
      return chunks[0], false;
    }

    method Consume(n: nat)
      requires Valid() && chunks != [] && n <= |chunks[0]|
      modifies this
      ensures Valid() && Remaining() == old(Remaining())[n..]
      ensures n == |old(chunks)[0]| ==> |chunks| < |old(chunks)|
    {
      assert Flatten(chunks)[n..] == chunks[0][n..] + Flatten(chunks[1..]);
      if n == |chunks[0]| {
        assert chunks[0][n..] == [];
        chunks := chunks[1..];
      } else {
        var rest := [chunks[0][n..]];
        assert (rest + chunks[1..])[1..] == chunks[1..];
        chunks := rest + chunks[1..];
      }
    }
  }

  /** Reads one frame; an overlong line is dropped up to its newline. The result and the bytes
      consumed are those of `ReadLine` on the bytes alone, however they were chunked. */
  method ReadFrame(max: nat, reader: ChunkedReader) returns (result: Outcome)
    requires reader.Valid()
    modifies reader
    ensures reader.Valid()
    ensures (result, reader.Remaining()) == ReadLine(max, old(reader.Remaining()), reader.ending)
  {
    var frame: seq<Byte> := [];
    var tooLong := false;
    ghost var line: seq<Byte> := [];
    ghost var input := reader.Remaining();
    while true
      invariant reader.Valid() && input == line + reader.Remaining() && Kept(max, line, frame, tooLong)
      decreases |reader.chunks|
    {
      KeptClassifies(max, line, frame, tooLong);
      var available, failed := reader.FillBuf();
      if available == [] {
        assert input == line;
        ReadUnterminated(max, line, reader.ending);
        if failed { return IoError; }
        if frame == [] { return EndOfInput; }
        if tooLong { return LineTooLong; }
        return Frame(frame);
      }
      var newline := LineEnd(available);
      ghost var content, rest := available[..newline], reader.Remaining()[newline..];
      assert input == (line + content) + rest && (newline < |available| ==> rest[0] == NEWLINE);
      frame, tooLong := Absorb(max, frame, tooLong, available[..newline], line);
      line := line + content;
      if newline < |available| {
        reader.Consume(newline + 1);
        ReadTerminated(max, line, rest, reader.ending);
        KeptClassifies(max, line, frame, tooLong);
        assert reader.Remaining() == rest[1..];
        if tooLong { return LineTooLong; }
        return Frame(frame);
      }
      reader.Consume(newline);
    }
  }

  // ---------------------------------------------------------------- reading a whole stream

  /** Every outcome the reader loop sees, up to the end of input or a read failure. */
  function ReadAll(max: nat, bytes: seq<Byte>, ending: Ending): seq<Outcome>
    decreases |bytes|
  {
    var (outcome, rest) := ReadLine(max, bytes, ending);
    if outcome == EndOfInput || outcome == IoError then [outcome] else [outcome] + ReadAll(max, rest, ending)
  }

  function Join(lines: seq<seq<Byte>>): seq<Byte> {
    if lines == [] then [] else lines[0] + [NEWLINE] + Join(lines[1..])
  }

  /** Each terminated line on its own. */
  function ClassifyAll(max: nat, lines: seq<seq<Byte>>): seq<Outcome> {
    if lines == [] then [] else [Classify(max, lines[0])] + ClassifyAll(max, lines[1..])
  }

  /** The lines of a byte string and its unterminated rest. */
  function SplitLines(bytes: seq<Byte>): (seq<seq<Byte>>, seq<Byte>)
    decreases |bytes|
  {
    var n := LineEnd(bytes);
    if n == |bytes| then ([], bytes)
    else
      var (lines, tail) := SplitLines(bytes[n + 1..]);
      ([bytes[..n]] + lines, tail)
  }

  ghost predicate IsSplit(bytes: seq<Byte>, lines: seq<seq<Byte>>, tail: seq<Byte>) {
    && bytes == Join(lines) + tail
    && NewlineFree(tail)
    && forall i :: 0 <= i < |lines| ==> NewlineFree(lines[i])
  }

  lemma SplitStep(bytes: seq<Byte>, n: nat, lines: seq<seq<Byte>>, tail: seq<Byte>)
    requires n < |bytes| && bytes[n] == NEWLINE && NewlineFree(bytes[..n]) && IsSplit(bytes[n + 1..], lines, tail)
    ensures IsSplit(bytes, [bytes[..n]] + lines, tail)
  {
    JoinCons(bytes[..n], lines, tail);
    assert bytes == bytes[..n] + ([NEWLINE] + bytes[n + 1..]);
  }

  /** Every byte string is newline-free lines, each terminated, and a newline-free rest. */
  lemma {:induction false} SplitIsJoin(bytes: seq<Byte>)
    ensures IsSplit(bytes, SplitLines(bytes).0, SplitLines(bytes).1)
    decreases |bytes|
  {
    var n := LineEnd(bytes);
    if n == |bytes| {
      assert bytes[..n] == bytes;
      assert Join([]) + bytes == bytes;
    } else {
      SplitIsJoin(bytes[n + 1..]);
      SplitStep(bytes, n, SplitLines(bytes[n + 1..]).0, SplitLines(bytes[n + 1..]).1);
    }
  }

  lemma JoinCons(line: seq<Byte>, lines: seq<seq<Byte>>, tail: seq<Byte>)
    ensures Join([line] + lines) + tail == line + ([NEWLINE] + (Join(lines) + tail))
  {
    assert ([line] + lines)[1..] == lines;
  }

  /** Reading a stream is splitting it at newlines: each line is read or refused on its own
      length alone, and an overlong line never disturbs the lines after it. */
  lemma {:induction false} ReadingIsSplitting(max: nat, lines: seq<seq<Byte>>, tail: seq<Byte>, ending: Ending)
    requires NewlineFree(tail) && forall i :: 0 <= i < |lines| ==> NewlineFree(lines[i])
    ensures ReadAll(max, Join(lines) + tail, ending) == ClassifyAll(max, lines) + ReadAll(max, tail, ending)
  {
    if lines == [] {
      assert Join(lines) + tail == tail;
    } else {
      var rest := Join(lines[1..]) + tail;
      JoinCons(lines[0], lines[1..], tail);
      assert [lines[0]] + lines[1..] == lines;
      ReadOneLine(max, lines[0], rest, ending);
      ReadingIsSplitting(max, lines[1..], tail, ending);
      FirstClassified(max, lines, ReadAll(max, tail, ending));
    }
  }

  lemma FirstClassified(max: nat, lines: seq<seq<Byte>>, after: seq<Outcome>)
    requires lines != []
    ensures [Classify(max, lines[0])] + (ClassifyAll(max, lines[1..]) + after) == ClassifyAll(max, lines) + after
  {}

  lemma ReadOneLine(max: nat, line: seq<Byte>, rest: seq<Byte>, ending: Ending)
    requires NewlineFree(line)
    ensures ReadAll(max, line + ([NEWLINE] + rest), ending) == [Classify(max, line)] + ReadAll(max, rest, ending)
  {
    ReadTerminated(max, line, [NEWLINE] + rest, ending);
    assert ([NEWLINE] + rest)[1..] == rest;
  }

  /** For every byte string at all: the reader's outcomes are those of the split text. */
  lemma ReadingAnyStream(max: nat, bytes: seq<Byte>, ending: Ending)
    ensures var (lines, tail) := SplitLines(bytes);
      ReadAll(max, bytes, ending) == ClassifyAll(max, lines) + ReadAll(max, tail, ending)
  {
    SplitIsJoin(bytes);
    ReadingIsSplitting(max, SplitLines(bytes).0, SplitLines(bytes).1, ending);
  }

  /** An overlong last line without a newline is reported at the end of input exactly when the
      limit is not zero; a codec with limit zero drops it and reports a clean end. */
  lemma OverlongRemainder(max: nat, tail: seq<Byte>)
    requires NewlineFree(tail) && |tail| > max
    ensures ReadAll(max, tail, AtEof) == [LineTooLong, EndOfInput] <==> max >= 1
    ensures max == 0 ==> ReadAll(max, tail, AtEof) == [EndOfInput]
  {
    ReadUnterminated(max, tail, AtEof);
    ReadUnterminated(max, [], AtEof);
    assert ReadAll(max, [], AtEof) == [EndOfInput];
  }

  // ---------------------------------------------------------------- encoding

  /** A JSON value; strings are UTF-8 bytes and numbers are integers. */
  datatype Json =
    | Null
    | Bool(value: bool)
    | Number(number: int)
    | Text(text: seq<Byte>)
    | List(items: seq<Json>)
    | Object(fields: seq<(seq<Byte>, Json)>)

  const QUOTE: Byte := 34
  const BACKSLASH: Byte := 92

  function HexDigit(n: nat): Byte
    requires n < 16
  {
    if n < 10 then 48 + n else 87 + n
  }

  /** One string byte as the serialiser writes it: RFC 8259 section 7 escapes every control
      character, the quote and the backslash. */
  function Escape(b: Byte): seq<Byte> {
    if b == QUOTE || b == BACKSLASH then [BACKSLASH, b]
    else if b == 8 then [BACKSLASH, 98]
    else if b == 9 then [BACKSLASH, 116]
    else if b == 10 then [BACKSLASH, 110]
    else if b == 12 then [BACKSLASH, 102]
    else if b == 13 then [BACKSLASH, 114]
    else if b < 32 then [BACKSLASH, 117, 48, 48, HexDigit(b / 16), HexDigit(b % 16)]
    else [b]
  }

  function PrintText(text: seq<Byte>): (printed: seq<Byte>)
    ensures NewlineFree(printed)
  {
    if text == [] then [] else Escape(text[0]) + PrintText(text[1..])
  }

  function PrintNat(n: nat): (printed: seq<Byte>)
    ensures NewlineFree(printed)
  {
    if n < 10 then [48 + n] else PrintNat(n / 10) + [48 + n % 10]
  }

  /** Compact JSON text: never a raw newline, at any depth. */
  function Print(value: Json): (printed: seq<Byte>)
    ensures NewlineFree(printed)
    decreases value, 0
  {
    match value
    case Null => [110, 117, 108, 108]
    case Bool(b) => if b then [116, 114, 117, 101] else [102, 97, 108, 115, 101]
    case Number(n) => if n < 0 then [45] + PrintNat(-n) else PrintNat(n)
    case Text(text) => [QUOTE] + PrintText(text) + [QUOTE]
    case List(items) => [91] + PrintItems(value, |items|) + [93]
    case Object(fields) => [123] + PrintFields(value, |fields|) + [125]
  }

  function PrintItems(value: Json, count: nat): (printed: seq<Byte>)
    requires value.List? && count <= |value.items|
    ensures NewlineFree(printed)
    decreases value, 0, count
  {
    if count == 0 then []
    else PrintItems(value, count - 1) + (if count == 1 then [] else [44]) + Print(value.items[count - 1])
  }

  function PrintFields(value: Json, count: nat): (printed: seq<Byte>)
    requires value.Object? && count <= |value.fields|
    ensures NewlineFree(printed)
    decreases value, 0, count
  {
    if count == 0 then []
    else
      var (key, field) := value.fields[count - 1];
      PrintFields(value, count - 1) + (if count == 1 then [] else [44])
        + [QUOTE] + PrintText(key) + [QUOTE, 58] + Print(field)
  }

  datatype Encoded = Encoded(bytes: seq<Byte>) | TooLong

  /** The framed bytes of one value, or a refusal when its text is over the limit. */
  function EncodeValue(max: nat, value: Json): Encoded {
    if |Print(value)| > max then TooLong else Encoded(Print(value) + [NEWLINE])
  }

  /** The stream one side writes: the encoded frames in order. */
  function EncodeAll(max: nat, values: seq<Json>): seq<Byte>
    requires forall i :: 0 <= i < |values| ==> EncodeValue(max, values[i]).Encoded?
  {
    if values == [] then [] else EncodeValue(max, values[0]).bytes + EncodeAll(max, values[1..])
  }

  function Payloads(values: seq<Json>): (texts: seq<seq<Byte>>)
    ensures |texts| == |values| && forall i :: 0 <= i < |values| ==> texts[i] == Print(values[i])
  {
    seq(|values|, i requires 0 <= i < |values| => Print(values[i]))
  }

  lemma {:induction false} EncodeAllIsJoin(max: nat, values: seq<Json>)
    requires forall i :: 0 <= i < |values| ==> EncodeValue(max, values[i]).Encoded?
    ensures EncodeAll(max, values) == Join(Payloads(values))
  {
    if values != [] {
      EncodeAllIsJoin(max, values[1..]);
      assert Payloads(values)[1..] == Payloads(values[1..]);
    }
  }

  lemma {:induction false} AllFit(max: nat, lines: seq<seq<Byte>>)
    requires forall i :: 0 <= i < |lines| ==> |lines[i]| <= max
    ensures ClassifyAll(max, lines) == seq(|lines|, i requires 0 <= i < |lines| => Frame(lines[i]))
  {
    if lines != [] { AllFit(max, lines[1..]); }
  }

  /** Whatever one side encodes, the other side reads back payload by payload, in order. */
  lemma ReadBackEncoded(max: nat, values: seq<Json>)
    requires forall i :: 0 <= i < |values| ==> EncodeValue(max, values[i]).Encoded?
    ensures ReadAll(max, EncodeAll(max, values), AtEof)
      == seq(|values|, i requires 0 <= i < |values| => Frame(Payloads(values)[i])) + [EndOfInput]
  {
    var texts := Payloads(values);
    EncodeAllIsJoin(max, values);
    assert Join(texts) + [] == Join(texts);
    ReadingIsSplitting(max, texts, [], AtEof);
    ReadUnterminated(max, [], AtEof);
    AllFit(max, texts);
  }
}
