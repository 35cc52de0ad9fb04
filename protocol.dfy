/** `VAT641Protocol`: frames commands as ASCII lines, performs one send and
    at most one line read per transaction, and checks and tokenises the
    reply. The logger is a no-op here; the encoding is fixed to 'ascii'. */
module Protocol {
  import opened Errors
  import opened Text
  import opened Ascii
  import opened SlaveTransport

  const Terminator: string := "\r\n"
  const CRLF: seq<byte> := [13, 10]
  /** Bytes asked for per read while flushing the input. */
  const ChunkSize: nat := 25

  lemma TerminatorBytes()
    ensures IsAscii(Terminator) && Bytes(Terminator) == CRLF && AllSpace(Terminator)
  {
  }

  /** Every piece of a message can be encoded exactly when their concatenation can. */
  lemma {:induction false} ConcatAscii(ds: seq<string>)
    ensures IsAscii(Concat(ds)) <==> forall i :: 0 <= i < |ds| ==> IsAscii(ds[i])
    decreases |ds|
  {
    if ds != [] {
      ConcatAscii(ds[1..]);
      assert Concat(ds) == ds[0] + Concat(ds[1..]);
      AsciiAppend(ds[0], Concat(ds[1..]));
      if IsAscii(Concat(ds)) {
        forall i | 0 <= i < |ds| ensures IsAscii(ds[i]) {
          if i > 0 { assert ds[i] == ds[1..][i - 1]; }
        }
      }
    }
  }

  /** `create_message(header, *data)`: the header, then every data piece, then
      CR LF, with nothing in between, ASCII-encoded. */
  function CreateMessage(header: string, data: seq<string>): (r: Result<seq<byte>>)
    ensures r.Ok? <==> IsAscii(header) && forall i :: 0 <= i < |data| ==> IsAscii(data[i])
    ensures r.Err? ==> r.error == UnicodeError
  {
    ConcatAscii(data);
    AsciiAppend(header, Concat(data));
    AsciiAppend(header + Concat(data), Terminator);
    match Encode(header + Concat(data) + Terminator)
    case None => Err(UnicodeError)
    case Some(b) => Ok(b)
  }

  /** On success the message is the encoding of the whole text line. */
  lemma CreatedText(header: string, data: seq<string>)
    requires IsAscii(header) && forall i :: 0 <= i < |data| ==> IsAscii(data[i])
    ensures IsAscii(header + Concat(data) + Terminator)
    ensures CreateMessage(header, data) == Ok(Bytes(header + Concat(data) + Terminator))
  {
    var text := header + Concat(data) + Terminator;
    assert IsAscii(text) by {
      ConcatAscii(data);
      AsciiAppend(header, Concat(data));
      AsciiAppend(header + Concat(data), Terminator);
    }
    EncodeAscii(text);
  }

  /** Encoded pieces laid end to end. */
  function BytesOfAll(ds: seq<string>): seq<byte>
    requires forall i :: 0 <= i < |ds| ==> IsAscii(ds[i])
  {
    if ds == [] then [] else Bytes(ds[0]) + BytesOfAll(ds[1..])
  }

  /** The message is the header's bytes, each piece's bytes and CR LF, laid end to end. */
  lemma {:induction false} MessageIsPieces(header: string, data: seq<string>)
    requires IsAscii(header) && forall i :: 0 <= i < |data| ==> IsAscii(data[i])
    ensures CreateMessage(header, data) == Ok(Bytes(header) + BytesOfAll(data) + CRLF)
  {
    CreatedText(header, data);
    ConcatBytes(data);
    AsciiAppend(header, Concat(data));
    BytesAppend(header, Concat(data));
    BytesAppend(header + Concat(data), Terminator);
    TerminatorBytes();
  }

  lemma {:induction false} ConcatBytes(ds: seq<string>)
    requires forall i :: 0 <= i < |ds| ==> IsAscii(ds[i])
    ensures IsAscii(Concat(ds)) && Bytes(Concat(ds)) == BytesOfAll(ds)
    decreases |ds|
  {
    ConcatAscii(ds);
    if ds != [] {
      ConcatBytes(ds[1..]);
      BytesAppend(ds[0], Concat(ds[1..]));
    }
  }

  /** A line that ends in CR LF and holds no earlier line feed is read whole. */
  lemma FirstTerminatorAtEnd(msg: seq<byte>)
    requires |msg| >= 2 && msg[|msg| - 2..] == CRLF
    requires forall j :: 0 <= j < |msg| - 1 ==> msg[j] != 10
    ensures DelimiterEnd(msg, CRLF) == Some(|msg|)
  {
    forall k | |CRLF| <= k < |msg| ensures !EndsAt(msg, CRLF, k) {
      assert msg[k - 1] != 10;
    }
    assert EndsAt(msg, CRLF, |msg|);
  }

  /** A message whose header and data hold no line feed reaches the device
      as exactly one line: its only CR LF is the one at its end. */
  lemma MessageIsOneFrame(header: string, data: seq<string>)
    requires IsAscii(header) && forall i :: 0 <= i < |data| ==> IsAscii(data[i])
    requires '\n' !in header + Concat(data)
    ensures CreateMessage(header, data).Ok?
    ensures DelimiterEnd(CreateMessage(header, data).value, CRLF) == Some(|CreateMessage(header, data).value|)
  {
    var text := header + Concat(data);
    CreatedText(header, data);
    var line := text + Terminator;
    var msg := Bytes(line);
    assert CreateMessage(header, data).value == msg;
    forall j | 0 <= j < |msg| - 1 ensures msg[j] != 10 {
      assert msg[j] as int == line[j] as int;
      if j < |text| {
        assert line[j] == text[j];
        assert text[j] in text;
      } else {
        assert line[j] == '\r';
      }
    }
    assert msg[|msg| - 2..] == CRLF by {
      assert msg[|msg| - 2] as int == line[|line| - 2] as int;
      assert msg[|msg| - 1] as int == line[|line| - 1] as int;
    }
    FirstTerminatorAtEnd(msg);
  }

  /** `response[n:]`: Python slicing past the end gives the empty string. */
  function DropPrefix(s: string, n: nat): string {
    if n <= |s| then s[n..] else []
  }

  /** `parse_response(response, header)`: decode; compare only the FIRST
      character of the header; drop `len(header)` characters; split on
      whitespace. There is no special case for an `E:` reply. The header is
      a byte string, so `startswith` first decodes `header[0]` with the
      ASCII codec, which fails for a character above 127 whatever the reply. */
  function ParseResponse(response: seq<byte>, header: string): (r: Result<seq<string>>)
    ensures r.Ok? ==> forall i :: 0 <= i < |r.value| ==> IsToken(r.value[i])
  {
    match Decode(response)
    case None => Err(UnicodeError)
    case Some(text) =>
      if header == [] then Err(IndexError)
      else if header[0] as int >= 128 then Err(UnicodeError)
      else if !(text != [] && text[0] == header[0]) then Err(CommunicationError(HeaderMismatch))
      else Ok(Split(DropPrefix(text, |header|)))
  }

  /** Parsing the bytes of an ASCII text, without the decoding step. */
  lemma ParseText(text: string, header: string)
    requires IsAscii(text)
    ensures ParseResponse(Bytes(text), header) ==
      if header == [] then Err(IndexError)
      else if header[0] as int >= 128 then Err(UnicodeError)
      else if !(text != [] && text[0] == header[0]) then Err(CommunicationError(HeaderMismatch))
      else Ok(Split(DropPrefix(text, |header|)))
  {
    DecodeEncode(text);
  }

  /** A decodable reply is refused with a header mismatch exactly when the
      header's first character is ASCII and the reply's first character
      differs from it; a non-ASCII first header character is a codec error
      whatever the reply. */
  lemma ParseRejectsOnFirstCharacter(response: seq<byte>, header: string)
    requires AsciiBytes(response) && header != []
    ensures ParseResponse(response, header) == Err(CommunicationError(HeaderMismatch))
        <==> header[0] as int < 128 && (response == [] || response[0] as int != header[0] as int)
    ensures header[0] as int >= 128 ==> ParseResponse(response, header) == Err(UnicodeError)
  {
  }

  /** When accepted, the result is the remainder after `len(header)`
      characters, split on whitespace: every token is a word of that
      remainder, and together they are all of its non-whitespace
      characters, in their original order. */
  lemma ParseAccepted(response: seq<byte>, header: string)
    requires ParseResponse(response, header).Ok?
    ensures header != [] && AsciiBytes(response) && response != []
    ensures response[0] as int == header[0] as int
    ensures var rest := DropPrefix(Decode(response).value, |header|);
      ParseResponse(response, header).value == Split(rest) &&
      Concat(ParseResponse(response, header).value) == RemoveSpaces(rest)
  {
    SplitKeepsText(DropPrefix(Decode(response).value, |header|));
  }

  /** The remaining header characters are never compared: a reply to the
      version query `i:01` is accepted where the status header `i:05` is expected. */
  lemma HeaderTailIgnored()
    ensures ParseResponse(Bytes("i:01 1.0\r\n"), "i:05") == Ok(["1.0"])
  {
    var text := "i:01 1.0\r\n";
    assert IsAscii(text) by {
      forall i | 0 <= i < |text| ensures text[i] as int < 128 {
        assert text[i] in "i:01 1.0\r\n";
      }
    }
    ParseText(text, "i:05");
    assert DropPrefix(text, 4) == " 1.0\r\n";
    SplitVersionTail();
  }

  lemma SplitVersionTail()
    ensures Split(" 1.0\r\n") == ["1.0"]
  {
    var s := " 1.0\r\n";
    assert s[1..] == "1.0" + "\r\n";
    SplitAfterWord("1.0", "\r\n");
    SplitAllSpace("\r\n");
  }

  /** Parsing a message built by `create_message` with the same header gives
      the whitespace-split concatenation of its data pieces. */
  lemma ParseCreated(header: string, data: seq<string>)
    requires header != [] && IsAscii(header) && forall i :: 0 <= i < |data| ==> IsAscii(data[i])
    ensures ParseResponse(CreateMessage(header, data).value, header) == Ok(Split(Concat(data)))
  {
    CreatedText(header, data);
    ParseLine(header, Concat(data));
  }

  lemma ParseLine(header: string, body: string)
    requires header != [] && IsAscii(header + body + Terminator)
    ensures ParseResponse(Bytes(header + body + Terminator), header) == Ok(Split(body))
  {
    var text := header + body + Terminator;
    ParseText(text, header);
    assert text[0] == header[0];
    assert DropPrefix(text, |header|) == body + Terminator;
    SplitTrailingSpace(body, Terminator);
  }

  /** Round trip for one whitespace-free payload. */
  lemma ParseCreatedToken(header: string, d: string)
    requires header != [] && IsAscii(header) && IsAscii(d) && IsToken(d)
    ensures ParseResponse(CreateMessage(header, [d]).value, header) == Ok([d])
  {
    assert CreateMessage(header, [d]).value == Bytes(header + d + Terminator) by {
      CreatedText(header, [d]);
      assert [d][1..] == [];
      assert Concat([d]) == d;
    }
    AsciiAppend(header, d);
    AsciiAppend(header + d, Terminator);
    ParseLine(header, d);
    SplitAfterWord(d, []);
    assert d + [] == d;
    assert Split(d) == [d];
  }

  /** Round trip for a message without data. */
  lemma ParseCreatedEmpty(header: string)
    requires header != [] && IsAscii(header)
    ensures ParseResponse(CreateMessage(header, []).value, header) == Ok([])
  {
    ParseCreated(header, []);
  }

  // ---- Transactions, as functions of the transport state ----

  /** `send_message`: any failure of `transport.write` becomes a `CommunicationError`. */
  function SendMessageOn(l: Link, raw: seq<byte>): (Result<()>, Link) {
    var (ok, l') := TransportWrite(l, raw);
    (if ok then Ok(()) else Err(CommunicationError(SendFailed)), l')
  }

  /** `read_response`: one line up to and including CR LF; a timeout becomes
      a `CommunicationError`. */
  function ReadResponseOn(l: Link): (Result<seq<byte>>, Link) {
    var (line, l') := TransportReadUntil(l, CRLF);
    match line
    case Some(b) => (Ok(b), l')
    case None => (Err(CommunicationError(ReadFailed)), l')
  }

  /** `query`: build, send, read one line, parse it with the same header. The
      source's own `except Timeout` handlers are unreachable, since the
      helpers already raise `CommunicationError`, so they have no branch here. */
  function QueryOn(l: Link, header: string, data: seq<string>): (Result<seq<string>>, Link) {
    match CreateMessage(header, data)
    case Err(e) => (Err(e), l)
    case Ok(msg) =>
      var (sent, l1) := SendMessageOn(l, msg);
      if sent.Err? then (Err(sent.error), l1)
      else
        var (resp, l2) := ReadResponseOn(l1);
        if resp.Err? then (Err(resp.error), l2)
        else (ParseResponse(resp.value, header), l2)
  }

  /** `write`: build, send, then read one line. A reply is only logged; a
      reply timeout is a `CommunicationError` from `read_response`, because
      the `pass` handler for `Timeout` is unreachable. */
  function WriteOn(l: Link, header: string, data: seq<string>): (Result<()>, Link) {
    match CreateMessage(header, data)
    case Err(e) => (Err(e), l)
    case Ok(msg) =>
      var (sent, l1) := SendMessageOn(l, msg);
      if sent.Err? then (Err(sent.error), l1)
      else
        var (resp, l2) := ReadResponseOn(l1);
        if resp.Err? then (Err(resp.error), l2) else (Ok(()), l2)
  }

  /** `clear`: read 25-byte chunks until the transport times out. */
  function ClearOn(l: Link): Link
    decreases |l.incoming|
  {
    var (chunk, l1) := TransportReadBytes(l, ChunkSize);
    if chunk.None? then l1 else ClearOn(l1)
  }

  /** Flushing empties the input, whatever its length, and leaves the
      output log and the link's behaviour as they were. */
  lemma {:induction false} ClearEmptiesInput(l: Link)
    ensures ClearOn(l) == l.(incoming := [])
    decreases |l.incoming|
  {
    if |l.incoming| >= ChunkSize {
      ClearEmptiesInput(l.(incoming := l.incoming[ChunkSize..]));
    }
  }

  /** So a stale reply, which is always shorter than one chunk, is dropped
      and not read by the next query. */
  lemma ClearDropsStaleReply(l: Link)
    requires l.incoming == CreateMessage("A:", ["000500"]).value
    ensures ClearOn(l).incoming == [] && ClearOn(l).outgoing == l.outgoing
  {
    ClearEmptiesInput(l);
  }

  // ---- What the transactions promise ----

  /** A query whose message can be sent and whose reply line has arrived
      writes exactly `create_message(header, *data)`, consumes exactly that
      one line, and returns it parsed against the same header. */
  lemma QueryRoundTrip(l: Link, header: string, data: seq<string>, k: nat)
    requires CreateMessage(header, data).Ok? && !l.writeFails
    requires DelimiterEnd(l.incoming, CRLF) == Some(k)
    ensures k <= |l.incoming|
    ensures QueryOn(l, header, data) ==
      (ParseResponse(l.incoming[..k], header),
       Link(l.incoming[k..], l.outgoing + CreateMessage(header, data).value, false))
  {
  }

  /** The ways a query fails before parsing: an unencodable message touches
      nothing; a refused write reads nothing; a missing reply line leaves
      the input untouched but the message sent. */
  lemma QueryFailures(l: Link, header: string, data: seq<string>)
    ensures CreateMessage(header, data).Err? ==> QueryOn(l, header, data) == (Err(UnicodeError), l)
    ensures CreateMessage(header, data).Ok? && l.writeFails ==>
      QueryOn(l, header, data) == (Err(CommunicationError(SendFailed)), l)
    ensures CreateMessage(header, data).Ok? && !l.writeFails && DelimiterEnd(l.incoming, CRLF).None? ==>
      QueryOn(l, header, data) ==
        (Err(CommunicationError(ReadFailed)), l.(outgoing := l.outgoing + CreateMessage(header, data).value))
  {
  }

  /** A write sends the same bytes and touches the transport exactly as a
      query does; any reply line, whatever its header, is success; only the
      failures of sending and reading surface. */
  lemma WriteLikeQuery(l: Link, header: string, data: seq<string>)
    ensures WriteOn(l, header, data).1 == QueryOn(l, header, data).1
    ensures WriteOn(l, header, data).0.Ok? <==>
      CreateMessage(header, data).Ok? && !l.writeFails && DelimiterEnd(l.incoming, CRLF).Some?
    ensures WriteOn(l, header, data).0.Err? ==>
      QueryOn(l, header, data).0.Err? && WriteOn(l, header, data).0.error == QueryOn(l, header, data).0.error
  {
  }

  /** A write with no reply is NOT silently accepted: the message goes out
      and the caller gets `CommunicationError("Could not read response")`. */
  lemma WriteReplyTimeoutIsError(l: Link, header: string, data: seq<string>)
    requires CreateMessage(header, data).Ok? && !l.writeFails
    requires DelimiterEnd(l.incoming, CRLF).None?
    ensures WriteOn(l, header, data) ==
      (Err(CommunicationError(ReadFailed)), l.(outgoing := l.outgoing + CreateMessage(header, data).value))
  {
  }

  // ---- The protocol's methods, proved against the functions above ----

  method SendMessage(t: Transport, raw: seq<byte>) returns (r: Result<()>)
    modifies t
    ensures (r, t.State()) == SendMessageOn(old(t.State()), raw)
  {
    var ok := t.Write(raw);
    r := if ok then Ok(()) else Err(CommunicationError(SendFailed));
  }

  method ReadResponse(t: Transport) returns (r: Result<seq<byte>>)
    modifies t
    ensures (r, t.State()) == ReadResponseOn(old(t.State()))
  {
    var line := t.ReadUntil(CRLF);
    r := if line.Some? then Ok(line.value) else Err(CommunicationError(ReadFailed));
  }

  method Query(t: Transport, header: string, data: seq<string>) returns (r: Result<seq<string>>)
    modifies t
    ensures (r, t.State()) == QueryOn(old(t.State()), header, data)
  {
    var message := CreateMessage(header, data);
    if message.Err? {
      return Err(message.error);
    }
    var sent := SendMessage(t, message.value);
    if sent.Err? {
      return Err(sent.error);
    }
    var response := ReadResponse(t);
    if response.Err? {
      return Err(response.error);
    }
    r := ParseResponse(response.value, header);
  }

  method Write(t: Transport, header: string, data: seq<string>) returns (r: Result<()>)
    modifies t
    ensures (r, t.State()) == WriteOn(old(t.State()), header, data)
  {
    var message := CreateMessage(header, data);
    if message.Err? {
      return Err(message.error);
    }
    var sent := SendMessage(t, message.value);
    if sent.Err? {
      return Err(sent.error);
    }
    var response := ReadResponse(t);
    if response.Err? {
      return Err(response.error);
    }
    // A non-empty reply is only logged.
    r := Ok(());
  }

  method Clear(t: Transport) returns (ok: bool)
    modifies t
    ensures ok
    ensures t.State() == ClearOn(old(t.State()))
  {
    while true
      invariant ClearOn(t.State()) == ClearOn(old(t.State()))
      decreases |t.incoming|
    {
      var chunk := t.ReadBytes(ChunkSize);
      if chunk.None? {
        return true;
      }
    }
  }
}
