/**
  One JSON object per line (agentctl/src/control_api/protocol.rs, `read_message`, and
  agentctl/src/control_api/server.rs, `write_response`). A stream arrives in chunks that bear no
  relation to its lines.
*/
module Framing {
  type Bytes = seq<char>

  const MAX_REQUEST_BYTES := 4 * 1024 * 1024
  const MAX_RESPONSE_BYTES := 64 * 1024 * 1024

  datatype ReadMessage = Complete(line: Bytes) | TooLarge | EndOfStream

  /** Where the first line ends: after its newline, or with the stream. */
  function LineEnd(bytes: Bytes): (end: nat)
    ensures end <= |bytes|
    ensures forall i :: 0 <= i < end - 1 ==> bytes[i] != '\n'
    ensures end < |bytes| ==> end > 0 && bytes[end - 1] == '\n'
    ensures bytes != [] ==> end > 0
  {
    if bytes == [] then 0 else if bytes[0] == '\n' then 1 else 1 + LineEnd(bytes[1..])
  }

  /** What a read gives, as a function of the bytes alone. */
  function FirstMessage(bytes: Bytes, limit: nat): ReadMessage {
    if bytes == [] then EndOfStream
    else if LineEnd(bytes) > limit then TooLarge
    else Complete(bytes[..LineEnd(bytes)])
  }

  /** What follows the first line. */
  function After(bytes: Bytes): Bytes {
    bytes[LineEnd(bytes)..]
  }

  function Concat(chunks: seq<Bytes>): Bytes {
    if chunks == [] then [] else chunks[0] + Concat(chunks[1..])
  }

  /** Where the line ends when its first part, without a newline, is already in hand. */
  lemma {:induction false} LineEndAfter(head: Bytes, rest: Bytes)
    requires '\n' !in head
    ensures LineEnd(head + rest) == |head| + LineEnd(rest)
  {
    if head == [] {
      assert head + rest == rest;
    } else {
      assert (head + rest)[1..] == head[1..] + rest;
      LineEndAfter(head[1..], rest);
    }
  }

  /** A line that ends inside a chunk ends there whatever follows; one that does not goes on. */
  lemma {:induction false} LineEndInChunk(chunk: Bytes, ahead: Bytes)
    requires chunk != [] && chunk <= ahead
    ensures
      var end := LineEnd(chunk);
      LineEnd(ahead) == if chunk[end - 1] == '\n' then end else end + LineEnd(ahead[end..])
  {
    if chunk[0] != '\n' && |chunk| > 1 {
      LineEndInChunk(chunk[1..], ahead[1..]);
      assert ahead[1..][LineEnd(chunk[1..])..] == ahead[LineEnd(chunk)..];
    }
  }

  /** The bytes end with these. */
  predicate EndsWith(bytes: Bytes, rest: Bytes) {
    bytes == rest || (bytes != [] && EndsWith(bytes[1..], rest))
  }

  lemma {:induction false} EndsWithLeft(bytes: Bytes, ahead: Bytes, n: nat)
    requires EndsWith(bytes, ahead) && n <= |ahead|
    ensures EndsWith(bytes, ahead[n..])
    decreases |bytes| + n
  {
    if bytes != ahead {
      EndsWithLeft(bytes[1..], ahead, n);
    } else if n > 0 {
      assert ahead[1..][n - 1..] == ahead[n..];
      EndsWithLeft(bytes[1..], ahead[1..], n - 1);
    }
  }

  lemma {:induction false} EndsWithTheRest(bytes: Bytes, ahead: Bytes)
    requires EndsWith(bytes, ahead)
    ensures |ahead| <= |bytes| && ahead == bytes[|bytes| - |ahead|..]
  {
    if bytes != ahead {
      EndsWithTheRest(bytes[1..], ahead);
    }
  }

  /** A read of `whole` has a part of its line in hand, within the limit, and `ahead` still to come. */
  predicate ComeTo(whole: Bytes, message: Bytes, ahead: Bytes, limit: nat) {
    && message <= whole
    && EndsWith(whole, ahead)
    && |whole| == |message| + |ahead|
    && LineEnd(whole) == |message| + LineEnd(ahead)
    && |message| <= limit
  }

  lemma ComeToTheEnd(whole: Bytes, message: Bytes, limit: nat)
    requires ComeTo(whole, message, [], limit)
    ensures FirstMessage(whole, limit) == if message == [] then EndOfStream else Complete(message)
    ensures EndsWith(whole, [])
  {
  }

  /** A line over the limit shows in the chunk that is buffered. */
  lemma TurnRefuses(whole: Bytes, message: Bytes, chunk: Bytes, ahead: Bytes, limit: nat)
    requires chunk != [] && chunk <= ahead && ComeTo(whole, message, ahead, limit)
    requires |message| + LineEnd(chunk) > limit
    ensures FirstMessage(whole, limit) == TooLarge && EndsWith(whole, ahead)
  {
    LineEndInChunk(chunk, ahead);
  }

  lemma Longer(whole: Bytes, message: Bytes, chunk: Bytes, n: nat)
    requires message <= whole && chunk <= whole[|message|..] && n <= |chunk|
    ensures message + chunk[..n] == whole[..|message| + n]
  {
  }

  lemma TakenFrom(whole: Bytes, message: Bytes, chunk: Bytes, ahead: Bytes, n: nat)
    requires message <= whole && EndsWith(whole, ahead) && |whole| == |message| + |ahead|
    requires chunk <= ahead && n <= |chunk|
    ensures EndsWith(whole, ahead[n..]) && whole[|message| + n..] == ahead[n..]
    ensures message + chunk[..n] == whole[..|message| + n]
  {
    EndsWithLeft(whole, ahead, n);
    EndsWithTheRest(whole, ahead);
    Longer(whole, message, chunk, n);
  }

  /** One turn of the reading loop, over the chunk that is buffered. */
  lemma Turn(whole: Bytes, message: Bytes, chunk: Bytes, ahead: Bytes, limit: nat)
    requires chunk != [] && chunk <= ahead && ComeTo(whole, message, ahead, limit)
    requires |message| + LineEnd(chunk) <= limit
    ensures
      var longer, left := message + chunk[..LineEnd(chunk)], ahead[LineEnd(chunk)..];
      if chunk[LineEnd(chunk) - 1] == '\n' then
        FirstMessage(whole, limit) == Complete(longer) && After(whole) == left && EndsWith(whole, left)
      else ComeTo(whole, longer, left, limit)
  {
    TakenFrom(whole, message, chunk, ahead, LineEnd(chunk));
    LineEndInChunk(chunk, ahead);
  }

  lemma FirstThenTheRest(bytes: Bytes, limit: nat)
    requires FirstMessage(bytes, limit).Complete?
    ensures bytes == FirstMessage(bytes, limit).line + After(bytes)
  {
  }

  /** A buffered stream: the chunks still to come, the first of them already buffered. */
  class Reader {
    var chunks: seq<Bytes>

    constructor (chunks: seq<Bytes>)
      requires forall i :: 0 <= i < |chunks| ==> chunks[i] != []
      ensures Valid() && this.chunks == chunks
    {
      this.chunks := chunks;
    }

    ghost predicate Valid()
      reads this
    {
      forall i :: 0 <= i < |chunks| ==> chunks[i] != []
    }

    function Remaining(): Bytes
      reads this
    {
      Concat(chunks)
    }

    /** What is buffered: the next bytes, and none only at the end of the stream. */
    method FillBuf() returns (available: Bytes)
      requires Valid()
      ensures available <= Remaining() && (available == [] ==> Remaining() == [])
      ensures chunks != [] ==> available == chunks[0]
    {
      if chunks == [] { return []; }
      return chunks[0];
    }

    /** At most what is buffered is consumed at a time. */
    method Consume(n: nat)
      requires Valid() && chunks != [] && n <= |chunks[0]|
      modifies this
      ensures Valid() && Remaining() == old(Remaining())[n..]
    {
      var head := chunks[0];
      assert Concat(chunks) == head + Concat(chunks[1..]);
      if n == |head| {
        assert (head + Concat(chunks[1..]))[n..] == Concat(chunks[1..]);
        chunks := chunks[1..];
      } else {
        var next := [head[n..]] + chunks[1..];
        assert next[1..] == chunks[1..];
        assert (head + Concat(chunks[1..]))[n..] == head[n..] + Concat(chunks[1..]);
        chunks := next;
      }
    }

    /**
      `read_message`: however the stream is cut into chunks, the result is the same, a complete
      message is consumed exactly, and what is left is always a tail of the stream.
    */
    method ReadMessage(limit: nat) returns (result: ReadMessage)
      requires Valid()
      modifies this
      ensures Valid()
      ensures result == FirstMessage(old(Remaining()), limit)
      ensures result.Complete? ==> Remaining() == After(old(Remaining()))
      ensures result.EndOfStream? ==> Remaining() == []
      ensures EndsWith(old(Remaining()), Remaining())
    {
      var message: Bytes := [];
      ghost var whole, ahead := Remaining(), Remaining();
      while true
        invariant Valid() && ahead == Remaining()
        invariant ComeTo(whole, message, ahead, limit)
        decreases |ahead|
      {
        var available := FillBuf();
        if available == [] {
          ComeToTheEnd(whole, message, limit);
          return if message == [] then EndOfStream else Complete(message);
        }
        var end := LineEnd(available);
        if |message| + end > limit {
          TurnRefuses(whole, message, available, ahead, limit);
          return TooLarge;
        }
        Consume(end);
        Turn(whole, message, available, ahead, limit);
        message, ahead := message + available[..end], Remaining();
        if available[end - 1] == '\n' {
          return Complete(message);
        }
      }
    }
  }

  // ----- one read after another -----

  function Lines(bytes: Bytes): seq<Bytes>
    decreases |bytes|
  {
    if bytes == [] then [] else [bytes[..LineEnd(bytes)]] + Lines(bytes[LineEnd(bytes)..])
  }

  /** A line has its only newline at its end; the last of a stream may have none. */
  predicate IsLine(line: Bytes, last: bool) {
    line != [] && '\n' !in line[..|line| - 1] && (last || line[|line| - 1] == '\n')
  }

  lemma {:induction false} LinesLoseNothing(bytes: Bytes)
    ensures Concat(Lines(bytes)) == bytes
    decreases |bytes|
  {
    if bytes != [] {
      var line, rest := bytes[..LineEnd(bytes)], bytes[LineEnd(bytes)..];
      LinesLoseNothing(rest);
      ConcatFirst(line, Lines(rest));
      assert Lines(bytes) == [line] + Lines(rest);
      assert bytes == line + rest;
    }
  }

  lemma ConcatFirst(first: Bytes, chunks: seq<Bytes>)
    ensures Concat([first] + chunks) == first + Concat(chunks)
  {
    assert ([first] + chunks)[1..] == chunks;
  }

  lemma FirstIsLine(bytes: Bytes)
    requires bytes != []
    ensures IsLine(bytes[..LineEnd(bytes)], LineEnd(bytes) == |bytes|)
  {
    var line := bytes[..LineEnd(bytes)];
    assert forall i :: 0 <= i < |line| - 1 ==> line[..|line| - 1][i] == bytes[i];
  }

  lemma {:induction false} EachIsLine(bytes: Bytes, i: nat)
    requires i < |Lines(bytes)|
    ensures IsLine(Lines(bytes)[i], i == |Lines(bytes)| - 1)
    decreases i
  {
    var rest := bytes[LineEnd(bytes)..];
    FirstIsLine(bytes);
    if i > 0 {
      EachIsLine(rest, i - 1);
      assert Lines(bytes)[i] == Lines(rest)[i - 1];
    } else {
      assert LineEnd(bytes) == |bytes| ==> rest == [];
      assert rest != [] ==> LineEnd(bytes) < |bytes|;
    }
  }

  /** The lines are the stream cut at its newlines: nothing is lost, and each ends at the first it has. */
  lemma LinesCutTheStream(bytes: Bytes)
    ensures Concat(Lines(bytes)) == bytes
    ensures forall i :: 0 <= i < |Lines(bytes)| ==> IsLine(Lines(bytes)[i], i == |Lines(bytes)| - 1)
  {
    LinesLoseNothing(bytes);
    forall i | 0 <= i < |Lines(bytes)|
      ensures IsLine(Lines(bytes)[i], i == |Lines(bytes)| - 1)
    {
      EachIsLine(bytes, i);
    }
  }

  lemma FirstLineRead(bytes: Bytes, limit: nat, line: Bytes, after: Bytes)
    requires FirstMessage(bytes, limit) == Complete(line) && bytes == line + after
    ensures Lines(bytes) != [] && Lines(bytes)[0] == line && Lines(bytes)[1..] == Lines(after) && |line| <= limit
  {
    assert bytes[LineEnd(bytes)..] == after;
  }

  /** One read, seen from the lines of the stream. */
  method ReadLine(reader: Reader, limit: nat) returns (message: ReadMessage)
    requires reader.Valid()
    modifies reader
    ensures reader.Valid()
    ensures
      var all := Lines(old(reader.Remaining()));
      match message
      case EndOfStream => all == []
      case TooLarge => all != [] && |all[0]| > limit
      case Complete(line) => all != [] && line == all[0] && |line| <= limit && Lines(reader.Remaining()) == all[1..]
  {
    ghost var bytes := reader.Remaining();
    message := reader.ReadMessage(limit);
    if message.Complete? {
      FirstThenTheRest(bytes, limit);
      FirstLineRead(bytes, limit, message.line, reader.Remaining());
    }
  }

  /** `lines` are the first of `all`, none over the limit, and all of them unless the next one is. */
  predicate UpToTheLimit(all: seq<Bytes>, lines: seq<Bytes>, limit: nat, refused: bool) {
    && lines <= all
    && (forall i :: 0 <= i < |lines| ==> |lines[i]| <= limit)
    && (if refused then |lines| < |all| && |all[|lines|]| > limit else lines == all)
  }

  /**
    Reading until the stream ends or a line is refused, as a connection is served: exactly the
    stream's lines in order, up to the first that is over the limit.
  */
  method ReadLines(reader: Reader, limit: nat) returns (lines: seq<Bytes>, refused: bool)
    requires reader.Valid()
    modifies reader
    ensures UpToTheLimit(Lines(old(reader.Remaining())), lines, limit, refused)
  {
    ghost var all := Lines(reader.Remaining());
    ghost var rest := all;
    lines := [];
    while true
      invariant reader.Valid() && rest == Lines(reader.Remaining())
      invariant SoFar(all, lines, rest, limit)
      decreases |rest|
    {
      var message := ReadLine(reader, limit);
      match message {
        case EndOfStream => return lines, false;
        case TooLarge => return lines, true;
        case Complete(line) =>
          OneMoreLine(all, lines, rest, limit);
          lines, rest := lines + [line], rest[1..];
      }
    }
  }

  /** `rest` is still to be read after `lines`, none of which is over the limit. */
  predicate SoFar(all: seq<Bytes>, lines: seq<Bytes>, rest: seq<Bytes>, limit: nat) {
    lines + rest == all && forall i :: 0 <= i < |lines| ==> |lines[i]| <= limit
  }

  lemma OneMoreLine(all: seq<Bytes>, lines: seq<Bytes>, rest: seq<Bytes>, limit: nat)
    requires SoFar(all, lines, rest, limit) && rest != [] && |rest[0]| <= limit
    ensures SoFar(all, lines + [rest[0]], rest[1..], limit)
  {
    assert lines + [rest[0]] + rest[1..] == lines + rest;
  }

  // ----- replies -----

  function Decimal(n: nat): (text: string)
    ensures text != [] && forall i :: 0 <= i < |text| ==> '0' <= text[i] <= '9'
  {
    if n < 10 then ["0123456789"[n]] else Decimal(n / 10) + ["0123456789"[n % 10]]
  }

  function Power(k: nat): nat {
    if k == 0 then 1 else 10 * Power(k - 1)
  }

  lemma {:induction false} DecimalIsShort(n: nat, k: nat)
    requires k > 0 && n < Power(k)
    ensures |Decimal(n)| <= k
    decreases k
  {
    if n >= 10 {
      assert k > 1 by { assert Power(1) == 10; }
      DecimalIsShort(n / 10, k - 1);
    }
  }

  const REPLY_HEAD := "{\"jsonrpc\":\"2.0\",\"id\":"
  const REPLY_ERROR := ",\"error\":{\"code\":-32603,\"message\":\""

  /** An error reply in the encoding of the wire, for a message that needs no escapes. */
  function ErrorReply(id: nat, message: string): Bytes {
    REPLY_HEAD + Decimal(id) + REPLY_ERROR + message + "\"}}"
  }

  const TOO_LARGE := "Control API response exceeds 64 MiB"
  const TURNS_TOO_LARGE := "Session turns response exceeds 64 MiB"
  const TURNS_HINT := "; retry with --last to request fewer turns"

  function TooLargeMessage(turns: bool): string {
    if turns then TURNS_TOO_LARGE + TURNS_HINT else TOO_LARGE
  }

  /** `write_response`: what goes out for a reply encoded as `encoded`. */
  function Written(encoded: Bytes, id: nat, turns: bool): Bytes {
    (if |encoded| >= MAX_RESPONSE_BYTES then ErrorReply(id, TooLargeMessage(turns)) else encoded) + "\n"
  }

  /**
    Every reply reaches its client whole: the client's limit admits it, newline and all, whatever the
    size of the result. It is the reply itself exactly when that fits.
  */
  lemma RepliesFitTheClient(encoded: Bytes, id: nat, turns: bool, rest: Bytes)
    requires '\n' !in encoded && id < 0x1_0000_0000_0000_0000
    ensures FirstMessage(Written(encoded, id, turns) + rest, MAX_RESPONSE_BYTES)
      == Complete(Written(encoded, id, turns))
    ensures Written(encoded, id, turns) == encoded + "\n" <==> |encoded| + 1 <= MAX_RESPONSE_BYTES
  {
    if |encoded| >= MAX_RESPONSE_BYTES {
      MessageIsOneLine(turns);
      ErrorReplyIsShort(id, TooLargeMessage(turns));
      LineIsRead(ErrorReply(id, TooLargeMessage(turns)), rest);
      assert |Written(encoded, id, turns)| < 201;
    } else {
      LineIsRead(encoded, rest);
    }
  }

  lemma MessageIsOneLine(turns: bool)
    ensures '\n' !in TooLargeMessage(turns) && |TooLargeMessage(turns)| < 100
  {
    forall i | 0 <= i < |TOO_LARGE|
      ensures TOO_LARGE[i] != '\n'
    {
    }
    forall i | 0 <= i < |TURNS_TOO_LARGE|
      ensures TURNS_TOO_LARGE[i] != '\n'
    {
    }
    forall i | 0 <= i < |TURNS_HINT|
      ensures TURNS_HINT[i] != '\n'
    {
    }
    assert '\n' !in TURNS_TOO_LARGE && '\n' !in TURNS_HINT;
  }

  lemma LineIsRead(body: Bytes, rest: Bytes)
    requires '\n' !in body && |body| < MAX_RESPONSE_BYTES
    ensures FirstMessage(body + "\n" + rest, MAX_RESPONSE_BYTES) == Complete(body + "\n")
  {
    LineEndAfter(body, "\n" + rest);
    assert body + ("\n" + rest) == body + "\n" + rest;
    assert (body + "\n" + rest)[..|body| + 1] == body + "\n";
  }

  lemma TwentyDigits()
    ensures Power(20) > 0x1_0000_0000_0000_0000
  {
    assert Power(5) == 100_000;
    assert Power(10) == 10_000_000_000;
    assert Power(15) == 1_000_000_000_000_000;
  }

  lemma ErrorReplyIsShort(id: nat, message: string)
    requires id < 0x1_0000_0000_0000_0000 && |message| < 100 && '\n' !in message
    ensures |ErrorReply(id, message)| < 200 && '\n' !in ErrorReply(id, message)
  {
    TwentyDigits();
    DecimalIsShort(id, 20);
    assert '\n' !in Decimal(id);
    PartsAreOneLine();
  }

  lemma PartsAreOneLine()
    ensures '\n' !in REPLY_HEAD && '\n' !in REPLY_ERROR && '\n' !in "\"}}"
    ensures |REPLY_HEAD| + |REPLY_ERROR| + 3 < 70
  {
    forall i | 0 <= i < |REPLY_HEAD|
      ensures REPLY_HEAD[i] != '\n'
    {
    }
    forall i | 0 <= i < |REPLY_ERROR|
      ensures REPLY_ERROR[i] != '\n'
    {
    }
  }
}
