# VAT 641 valve controller: protocol and driver model

A Dafny model of the Python driver for the VAT 64.1 vacuum valve controller.
The driver talks to the controller over a serial line with ASCII frames.

- **Protocol** (`vat_641/protocol.py`). A frame is built as header + data pieces + `\r\n` and encoded as ASCII.
  A reply line is decoded and accepted if its first character equals the header's first character.
  Then `len(header)` characters are dropped and the rest is split on whitespace.
  Transport failures become `CommunicationError`.
  `query` sends one frame and parses one reply line.
  `write` sends one frame and then reads one reply line, which it only logs.
  `clear` reads 25-byte chunks until the transport times out.
- **Driver** (`vat_641/driver.py`). It holds the command table (headers `U:`, `O:`, `C:`, `H:`, `Z:`, `V:`, `A:`/`R:`, `i:01`, `i:05`).
  The position and speed setters run a type check and a range check, then zero-pad the value to six digits.
  `is_open` classifies a status string by its characters at offsets 7 and 11.

Files and modules:
- `errors.dfy` (`Errors`): `Option`, `Result`, and the raised exceptions as an `Error` datatype.
- `text.dfy` (`Text`): Python's `str.split(None)`, with the inverse `' '.join` and the split lemmas.
- `decimal.dfy` (`Decimal`): `str(n)`, `zfill` and `int()`.
- `ascii.dfy` (`Ascii`): the `ascii` codec, with encode/decode round trips.
- `transport.dfy` (`SlaveTransport`): a stub of the serial transport.
  Its state is a queue of incoming bytes, a log of outgoing bytes and a flag that makes writes fail.
  The class `Transport` holds that state; `Link` is the same state as a value.
- `protocol.dfy` (`Protocol`): the protocol operations.
  `create_message` and `parse_response` are pure functions.
  `send_message`, `read_response`, `query`, `write` and `clear` are each a pure function over `Link` plus a method on `Transport` proved equal to that function.
- `driver.dfy` (`Driver`): the command table, the guards, the reply decoding, and the class `Vat641`.

Places where the code behaves differently from what a reader might expect:
- The header check compares only the first character of the header. The rest of the header is still stripped by length.
- There is no `E:` error-sentinel handling.
- There is no lock around a transaction.
- A `write` whose reply times out does not succeed. `read_response` already turns the timeout into `CommunicationError`, so the `except Timeout: pass` handler never runs.
- Likewise the `except Timeout` handlers in `query` are unreachable, so the model has no branch for them.
- An unknown status character makes `is_open`'s classification return `None`; it does not raise.
- `is_open` itself always raises `TypeError`. Its status entry is a bare tuple, and `_query` accepts only `Command` objects.

## Model

| member | source | states |
|---|---|---|
| Text.Split | vat_641/protocol.py:44 | every element of `split()` is a non-empty word without whitespace |
| Text.SplitKeepsText | vat_641/protocol.py:44 | the tokens, glued together, are exactly the non-whitespace characters of the input in their original order |
| Text.SplitJoin | vat_641/protocol.py:44 | `split()` is the inverse of `' '.join` on a list of tokens |
| Text.SplitAfterWord | vat_641/protocol.py:44 | a token followed by whitespace or the end of text is split off as one word, before the rest |
| Text.SplitTrailingSpace | vat_641/protocol.py:43-44 | trailing whitespace such as the line terminator adds no token |
| Ascii.DecodeEncode | vat_641/protocol.py:35-38 | decoding the ASCII encoding of a string gives the string back |
| Ascii.EncodeDecode | vat_641/protocol.py:35-38 | encoding a decoded ASCII byte string gives the bytes back |
| Protocol.CreateMessage | vat_641/protocol.py:30-35 | a message can be built exactly when the header and every data piece are ASCII; otherwise the failure is the codec's error |
| Protocol.MessageIsPieces | vat_641/protocol.py:30-35 | the message is the header's bytes, each data piece's bytes and CR LF, end to end, with nothing inserted |
| Protocol.MessageIsOneFrame | vat_641/protocol.py:30-35 | when header and data contain no line feed, the message's first CR LF is its last two bytes, so the device sees one line |
| Protocol.ParseResponse | vat_641/protocol.py:37-44 | an accepted reply yields only non-empty, whitespace-free tokens |
| Protocol.ParseText | vat_641/protocol.py:37-44 | on an ASCII reply: empty header raises IndexError; a first header character above 127 is a codec error (UnicodeError); otherwise a first character differing from `header[0]` is a header mismatch; otherwise the result is the split of the text after `len(header)` characters |
| Protocol.ParseRejectsOnFirstCharacter | vat_641/protocol.py:40-41 | a decodable reply is refused with "Response header mismatch" if and only if the header's first character is ASCII and the reply is empty or starts with a different character; a non-ASCII first header character gives UnicodeError whatever the reply |
| Protocol.ParseAccepted | vat_641/protocol.py:40-44 | an accepted reply starts with `header[0]`, and its tokens are the split of the remainder after `len(header)` characters, keeping all its non-whitespace text in order |
| Protocol.HeaderTailIgnored | vat_641/protocol.py:40-44 | the reply `i:01 1.0` is accepted for the header `i:05` and yields `["1.0"]` |
| Protocol.ParseCreated | vat_641/protocol.py:30-44 | parsing a message made by `create_message` with the same non-empty header gives the split of the concatenated data pieces |
| Protocol.ParseCreatedToken | vat_641/protocol.py:30-44 | round trip: one non-empty whitespace-free ASCII payload `d` parses back to `[d]` |
| Protocol.ParseCreatedEmpty | vat_641/protocol.py:30-44 | round trip: a message without data parses back to `[]` |
| Protocol.QueryRoundTrip | vat_641/protocol.py:61-73 | when sending works and a reply line waits, `query` appends exactly `create_message(header, *data)` to the output, consumes exactly that one line, and returns it parsed with the same header |
| Protocol.QueryFailures | vat_641/protocol.py:46-73 | unencodable data fails before any I/O; a refused write fails with "Could not send data" and reads nothing; a missing reply fails with "Could not read response" after the message was sent |
| Protocol.WriteLikeQuery | vat_641/protocol.py:75-88 | `write` moves the same bytes as `query`; it succeeds if and only if the message was sent and some reply line arrived, whatever that line says |
| Protocol.WriteReplyTimeoutIsError | vat_641/protocol.py:82-88 | a `write` without a reply line sends its message and then fails with `CommunicationError("Could not read response")` |
| Protocol.ClearEmptiesInput | vat_641/protocol.py:90-95 | flushing (25-byte reads until the timeout) leaves the input empty, whatever its length, and leaves the output log and the link unchanged |
| Protocol.ClearDropsStaleReply | vat_641/protocol.py:90-95 | a pending short reply such as `A:000500\r\n` is dropped by the flush, so the next query cannot read it |
| Protocol.SendMessage | vat_641/protocol.py:54-59 | writes the bytes; a transport failure becomes `CommunicationError("Could not send data")` |
| Protocol.ReadResponse | vat_641/protocol.py:46-52 | returns the waiting bytes up to and including the first CR LF; a timeout becomes `CommunicationError("Could not read response")` |
| Protocol.Query | vat_641/protocol.py:61-73 | result and new transport state are those of: build the message, send it, read one line, parse that line with the same header, stopping at the first failure (whose properties are QueryRoundTrip and QueryFailures) |
| Protocol.Write | vat_641/protocol.py:75-88 | result and new transport state are those of: build, send, read one line and ignore its content, stopping at the first failure (whose properties are WriteLikeQuery and WriteReplyTimeoutIsError) |
| Protocol.Clear | vat_641/protocol.py:90-95 | returns true, and the transport is left as the flush leaves it; the loop keeps that outcome invariant |
| Decimal.ParseInt | vat_641/driver.py:88 | `int()` succeeds exactly on an optional sign followed by at least one decimal digit |
| Decimal.ZFillStrRoundTrip | vat_641/driver.py:85-88 | `int(str(n).zfill(w)) == n` for every non-negative `n` and width `w` |
| Driver.AsWritable | vat_641/driver.py:60-64 | `_write` wraps a bare tuple as a write-only Command (no query header) under the tuple's header, and keeps a Command exactly as it is |
| Driver.DecodeString | vat_641/driver.py:58 | a query result is decoded only from exactly one token, which is returned unchanged |
| Driver.TableHeaders | vat_641/driver.py:36-49 | the table writes mode and key codes under `U:`, open/close/hold/zero adjust under `O:`/`C:`/`H:`/`Z:`, speed under `V:`, position under `R:`; the position query is the protocol query under `A:` and the version query the one under `i:01`, each with the single-token decoding, both in result and in transport state |
| Driver.SetpointPayload | vat_641/driver.py:78-85 | a non-integer raises TypeError; a value below 0 or above 1000 raises ValueError; otherwise the payload is 6 decimal digits that `int` reads back as the value |
| Driver.SetpointOf500 | vat_641/driver.py:85 | position 500 is sent as `000500` |
| Driver.PositionReadBack | vat_641/driver.py:85-88 | if the device answers `A:` with the payload `set_valve_position(p)` wrote, `get_valve_position` returns `p`; it sends `A:\r\n` and consumes the whole reply |
| Driver.ClassifyStatus | vat_641/driver.py:94-106 | a `-` at index 11 means not connected whatever index 7 holds; otherwise `N`, `C`, `0`/`O` at index 7 give intermediate, closed, open, and any other character gives None; a string shorter than 12 characters raises IndexError |
| Driver.IsOpenRaises | vat_641/driver.py:49-96 | as written, `is_open` raises TypeError on every call and leaves the transport untouched |
| Driver.OpenWithoutReply | vat_641/driver.py:72-73 | with no reply waiting, `open()` sends `O:\r\n` and still fails with "Could not read response" |
| Driver.Vat641.constructor | vat_641/driver.py:27-33 | the driver keeps the given transport |
| Driver.Vat641.Clear | vat_641/driver.py:51-52 | leaves the transport as the protocol's flush does, and returns nothing |
| Driver.Vat641.QueryEntry | vat_641/driver.py:54-58 | refuses a non-Command with TypeError before any I/O; otherwise runs the protocol query under the query header |
| Driver.Vat641.WriteEntry | vat_641/driver.py:60-64 | runs the protocol write under the entry's write header |
| Driver.Vat641.SwitchToLocalMode | vat_641/driver.py:66-67 | writes `02` under `U:` |
| Driver.Vat641.SwitchToRemoteMode | vat_641/driver.py:69-70 | writes `01` under `U:` |
| Driver.Vat641.Open | vat_641/driver.py:72-73 | writes an empty payload under `O:` |
| Driver.Vat641.Close | vat_641/driver.py:75-76 | writes an empty payload under `C:` |
| Driver.Vat641.SetValvePosition | vat_641/driver.py:78-85 | a rejected value raises and the transport is untouched; an accepted one is written under `R:` as its 6-digit payload |
| Driver.Vat641.GetValvePosition | vat_641/driver.py:87-88 | the result is `int` of the single token of the `A:` query |
| Driver.Vat641.GetOpen | vat_641/driver.py:90-92 | the position divided by ten, over reals |
| Driver.Vat641.IsOpen | vat_641/driver.py:94-106 | queries the status entry and classifies it; as written this is always TypeError with no I/O |
| Driver.Vat641.ZeroAdjust | vat_641/driver.py:108-109 | writes an empty payload under `Z:` |
| Driver.Vat641.Hold | vat_641/driver.py:111-112 | writes an empty payload under `H:` |
| Driver.Vat641.InterlockKeys | vat_641/driver.py:114-115 | writes `03` under `U:` |
| Driver.Vat641.ReleaseKeys | vat_641/driver.py:117-118 | writes `04` under `U:` |
| Driver.Vat641.SetSpeed | vat_641/driver.py:120-127 | the same guards and padding as the position, written under `V:` |
| Driver.Vat641.GetSoftwareVersion | vat_641/driver.py:129-130 | the single token of the `i:01` query |

## Left out

- Logging (`vat_641/protocol.py:49`, `:56`, `:85`) is a no-op. A missing logger (`logger=None`) would make `send_message` always fail through its bare `except`; that is not modelled.
- Locking and concurrency: the code has none, and the model is sequential.
- The serial transport and the `slave` library (`Command`, `String`, `Protocol`, `Timeout`) are not part of this model. They are replaced by stubs:
  - `read_until` consumes up to the first delimiter. On a timeout it consumes nothing.
  - `read_bytes(n)` times out when fewer than `n` bytes wait; the timed-out read has taken those bytes off the line.
  - A write either fails completely or succeeds completely.
  - `Command(q, w, String)` takes the query header first.
  - `String` passes written values through unchanged.
  - A query result must be exactly one token (`ResponseShapeError` otherwise).
  - Querying a write-only Command fails (`NotQueryable`); the table never does this.
- Protocol.Clear: in the model the incoming bytes are finite, so the loop always ends. A device that never stops sending, which would keep the source's `while True` loop running, is not modelled.
- Decimal.ParseInt: Python's `int()` also strips surrounding whitespace. This is not modelled, because its argument is always a token from `split()`, which has no whitespace.
- The `protocol` argument of `VAT641Driver.__init__` (`vat_641/driver.py:27-30`) is not modelled: the driver always uses this protocol. Its default builds a protocol without a logger, which the logging line above covers.
- Driver.Vat641.GetOpen: `/ 10.0` is computed over reals, not binary floating point.
- Python 2 `str`/`unicode` types are one `string` here; every header is taken to be a byte `str`, as all of the driver's headers are, so a non-ASCII `header[0]` fails in `startswith` when the ASCII codec decodes it. A `unicode` header passed to `parse_response` directly, which would compare without decoding, is not modelled. ASCII codec failures, encoding and decoding alike, become the single `UnicodeError`.
- `PyValue` only tells integers from everything else. Python's `bool`, an `int` subclass, would count as an integer.
- `vat_641/factory.py` (port lookup, 4800 baud 7E1 serial set-up, logger creation) is wiring and is not part of this model.
