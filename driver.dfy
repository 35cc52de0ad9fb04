/** `VAT641Driver`: the command table of the VAT 641 valve controller, the
    local validation in front of the protocol, and the decoding of replies. */
module Driver {
  import opened Errors
  import opened Text
  import opened Decimal
  import opened Ascii
  import opened SlaveTransport
  import opened Protocol

  /** The states `is_open` reports; `Code` gives the driver's `VALVE_*` numbers. */
  datatype ValveState = Open | Closed | Intermediate | NotConnected {
    function Code(): int {
      match this
      case Open => 0
      case Closed => 1
      case Intermediate => 2
      case NotConnected => 4
    }
  }

  /** A `slave` Command: an optional query header and a write header, both
      with the `String` type, which passes values through unchanged. */
  datatype Command = Command(queryHeader: Option<string>, writeHeader: string)

  /** An entry of the driver's table: either a bare `(header, String)`
      tuple or a Command object. */
  datatype Entry = Tuple(header: string) | Cmd(command: Command)

  /** A Python argument to a numeric setter: an `int`/`long`, or anything else. */
  datatype PyValue = PyInt(n: int) | PyOther

  // ---- The command table built by `__init__` ----

  const Mode: Entry := Tuple("U:")
  const CloseValve: Entry := Tuple("C:")
  const OpenValve: Entry := Tuple("O:")
  const HoldValve: Entry := Tuple("H:")
  const ZeroAdjustValve: Entry := Tuple("Z:")
  const Interlock: Entry := Tuple("U:")
  const Speed: Entry := Tuple("V:")
  const SoftwareVersion: Entry := Cmd(Command(Some("i:01"), "i:01"))
  /** Read with `A:`, written with `R:`. */
  const ValvePosition: Entry := Cmd(Command(Some("A:"), "R:"))
  /** A bare tuple, so `_query` refuses it. */
  const ValveIsOpen: Entry := Tuple("i:05")

  const LocalCode: string := "02"
  const RemoteCode: string := "01"
  const InterlockCode: string := "03"
  const ReleaseCode: string := "04"

  // ---- `_write` and `_query` ----

  /** `_write` wraps anything that is not a Command as a write-only Command. */
  function AsWritable(e: Entry): (c: Command)
    ensures e.Tuple? ==> c == Command(None, e.header)
    ensures e.Cmd? ==> c == e.command
  {
    match e
    case Tuple(h) => Command(None, h)
    case Cmd(c) => c
  }

  /** The `String` type's decoding of a reply: exactly one token, unchanged. */
  function DecodeString(tokens: seq<string>): (r: Result<string>)
    ensures r.Ok? <==> |tokens| == 1
    ensures r.Ok? ==> r.value == tokens[0]
    ensures r.Err? ==> r.error == ResponseShapeError
  {
    if |tokens| == 1 then Ok(tokens[0]) else Err(ResponseShapeError)
  }

  /** `_query(cmd)`: anything but a Command raises `TypeError` before any I/O;
      a Command runs `protocol.query` with its query header and no data. */
  function QueryEntryOn(l: Link, e: Entry): (Result<string>, Link) {
    match e
    case Tuple(_) => (Err(TypeError("Can only query on Command")), l)
    case Cmd(c) =>
      match c.queryHeader
      case None => (Err(NotQueryable), l)
      case Some(h) =>
        var (tokens, l') := QueryOn(l, h, []);
        (if tokens.Err? then Err(tokens.error) else DecodeString(tokens.value), l')
  }

  /** `_write(cmd, *datas)`: `protocol.write` with the write header. */
  function WriteEntryOn(l: Link, e: Entry, data: seq<string>): (Result<()>, Link) {
    WriteOn(l, AsWritable(e).writeHeader, data)
  }

  /** Every bare tuple in the table is written under its own header; only
      the position and version Commands can be queried. */
  lemma TableHeaders(l: Link, data: seq<string>)
    ensures WriteEntryOn(l, Mode, data) == WriteOn(l, "U:", data)
    ensures WriteEntryOn(l, Interlock, data) == WriteOn(l, "U:", data)
    ensures WriteEntryOn(l, OpenValve, data) == WriteOn(l, "O:", data)
    ensures WriteEntryOn(l, CloseValve, data) == WriteOn(l, "C:", data)
    ensures WriteEntryOn(l, HoldValve, data) == WriteOn(l, "H:", data)
    ensures WriteEntryOn(l, ZeroAdjustValve, data) == WriteOn(l, "Z:", data)
    ensures WriteEntryOn(l, Speed, data) == WriteOn(l, "V:", data)
    ensures WriteEntryOn(l, ValvePosition, data) == WriteOn(l, "R:", data)
    ensures var (t, l') := QueryOn(l, "A:", []);
      QueryEntryOn(l, ValvePosition) == (if t.Err? then Err(t.error) else DecodeString(t.value), l')
    ensures var (t, l') := QueryOn(l, "i:01", []);
      QueryEntryOn(l, SoftwareVersion) == (if t.Err? then Err(t.error) else DecodeString(t.value), l')
  {
  }

  // ---- Local validation of the numeric setters ----

  /** The guard and encoding shared by `set_valve_position` and `set_speed`:
      a non-integer raises `TypeError`, a value outside [0, 1000] raises
      `ValueError`, anything else becomes `str(n).zfill(6)`, which reads
      back through `int` as `n`. */
  function SetpointPayload(v: PyValue): (r: Result<string>)
    ensures r.Ok? <==> v.PyInt? && 0 <= v.n <= 1000
    ensures v.PyOther? ==> r == Err(TypeError("position must be an integer"))
    ensures v.PyInt? && (v.n < 0 || v.n > 1000) ==> r == Err(ValueError("position must be in range [0, 1000]"))
    ensures r.Ok? ==> |r.value| == 6 && AllDigits(r.value) && ParseInt(r.value) == Ok(v.n)
  {
    match v
    case PyOther => Err(TypeError("position must be an integer"))
    case PyInt(n) =>
      if n < 0 || n > 1000 then Err(ValueError("position must be in range [0, 1000]"))
      else
        StrLengthBound(n);
        ZFillStrRoundTrip(n, 6);
        Ok(ZFill(Str(n), 6))
  }

  /** Concretely, 500 is sent as `000500`. */
  lemma SetpointOf500()
    ensures SetpointPayload(PyInt(500)) == Ok("000500")
  {
    assert DigitChar(5) == '5' && DigitChar(0) == '0';
    assert Str(5) == "5";
    assert Str(50) == "50";
    assert Str(500) == "500";
    assert Zeros(3) == "000";
    assert ZFill("500", 6) == Zeros(3) + "500" == "000500";
    assert SetpointPayload(PyInt(500)) == Ok(ZFill(Str(500), 6));
  }

  /** A whitespace-free digit payload is a token of ASCII characters. */
  lemma DigitsAreToken(s: string)
    requires s != [] && AllDigits(s)
    ensures IsAscii(s) && IsToken(s)
  {
  }

  // ---- Decoding of replies ----

  /** `get_valve_position`: `int` of the single token of the `A:` reply. */
  function GetValvePositionOn(l: Link): (Result<int>, Link) {
    var (s, l') := QueryEntryOn(l, ValvePosition);
    (if s.Err? then Err(s.error) else ParseInt(s.value), l')
  }

  /** What `set_valve_position(p)` writes, framed as the device's `A:` reply,
      reads back as `p`: the setter and the getter are inverse. */
  lemma PositionReadBack(p: int, l: Link)
    requires 0 <= p <= 1000 && !l.writeFails
    requires l.incoming == CreateMessage("A:", [SetpointPayload(PyInt(p)).value]).value
    ensures GetValvePositionOn(l) == (Ok(p), Link([], l.outgoing + Bytes("A:\r\n"), false))
  {
    var payload := SetpointPayload(PyInt(p)).value;
    DigitsAreToken(payload);
    MessageIsOneFrame("A:", [payload]);
    ParseCreatedToken("A:", payload);
    CreatedText("A:", []);
    assert Concat([]) == [];
    assert "A:" + [] + "\r\n" == "A:\r\n";
    var k := |l.incoming|;
    assert l.incoming[..k] == l.incoming && l.incoming[k..] == [];
  }

  /** `is_open`'s decision on the status string: index 11 is read first
      (`-` means not connected, whatever index 7 holds), then index 7
      decides; an unknown character falls through to `None`, and a string
      too short for either index raises `IndexError`. */
  function ClassifyStatus(s: string): (r: Result<Option<ValveState>>)
    ensures r.Err? <==> |s| < 12
    ensures r.Err? ==> r.error == IndexError
    ensures r == Ok(Some(NotConnected)) <==> |s| >= 12 && s[11] == '-'
    ensures r == Ok(Some(Intermediate)) <==> |s| >= 12 && s[11] != '-' && s[7] == 'N'
    ensures r == Ok(Some(Closed)) <==> |s| >= 12 && s[11] != '-' && s[7] == 'C'
    ensures r == Ok(Some(Open)) <==> |s| >= 12 && s[11] != '-' && (s[7] == '0' || s[7] == 'O')
    ensures r == Ok(None) <==> |s| >= 12 && s[11] != '-' && s[7] !in "NC0O"
  {
    if |s| <= 7 then Err(IndexError)
    else if |s| <= 11 then Err(IndexError)
    else
      var a, b := s[7], s[11];
      if b == '-' then Ok(Some(NotConnected))
      else if a == 'N' then Ok(Some(Intermediate))
      else if a == 'C' then Ok(Some(Closed))
      else if a == '0' || a == 'O' then Ok(Some(Open))
      else Ok(None)
  }

  /** Classify a status reply, passing a query failure through. */
  function ClassifyReply(s: Result<string>): Result<Option<ValveState>> {
    match s
    case Err(e) => Err(e)
    case Ok(status) => ClassifyStatus(status)
  }

  /** `is_open` as written: query the status entry, then classify. */
  function IsOpenOn(l: Link): (Result<Option<ValveState>>, Link) {
    var (s, l') := QueryEntryOn(l, ValveIsOpen);
    (ClassifyReply(s), l')
  }

  /** Because the status entry is a bare tuple, `is_open` raises `TypeError`
      on every call and never touches the transport. */
  lemma IsOpenRaises(l: Link)
    ensures IsOpenOn(l) == (Err(TypeError("Can only query on Command")), l)
  {
  }

  /** With no reply from the device, `open()` sends `O:\r\n` and still fails
      with `CommunicationError("Could not read response")`. */
  lemma OpenWithoutReply(l: Link)
    requires !l.writeFails && l.incoming == []
    ensures WriteEntryOn(l, OpenValve, [""]) ==
      (Err(CommunicationError(ReadFailed)), l.(outgoing := l.outgoing + Bytes("O:\r\n")))
  {
    CreatedText("O:", [""]);
    assert [""][1..] == [];
    assert Concat([""]) == "";
    assert "O:" + "" + "\r\n" == "O:\r\n";
  }

  /** The driver object. Its command table is the module's constants; the
      protocol keeps no state, so only the transport is held. */
  class Vat641 {
    const transport: Transport

    constructor (transport: Transport)
      ensures this.transport == transport
    {
      this.transport := transport;
    }

    /** Flushes the input; the protocol's `True` is not passed on. */
    method Clear()
      modifies transport
      ensures transport.State() == ClearOn(old(transport.State()))
    {
      var _ := Protocol.Clear(transport);
    }

    method QueryEntry(e: Entry) returns (r: Result<string>)
      modifies transport
      ensures (r, transport.State()) == QueryEntryOn(old(transport.State()), e)
    {
      match e
      case Tuple(_) =>
        r := Err(TypeError("Can only query on Command"));
      case Cmd(c) =>
        match c.queryHeader
        case None =>
          r := Err(NotQueryable);
        case Some(h) =>
          var tokens := Protocol.Query(transport, h, []);
          r := if tokens.Err? then Err(tokens.error) else DecodeString(tokens.value);
    }

    method WriteEntry(e: Entry, data: seq<string>) returns (r: Result<()>)
      modifies transport
      ensures (r, transport.State()) == WriteEntryOn(old(transport.State()), e, data)
    {
      var c := AsWritable(e);
      r := Protocol.Write(transport, c.writeHeader, data);
    }

    method SwitchToLocalMode() returns (r: Result<()>)
      modifies transport
      ensures (r, transport.State()) == WriteOn(old(transport.State()), "U:", ["02"])
    {
      r := WriteEntry(Mode, [LocalCode]);
    }

    method SwitchToRemoteMode() returns (r: Result<()>)
      modifies transport
      ensures (r, transport.State()) == WriteOn(old(transport.State()), "U:", ["01"])
    {
      r := WriteEntry(Mode, [RemoteCode]);
    }

    method Open() returns (r: Result<()>)
      modifies transport
      ensures (r, transport.State()) == WriteOn(old(transport.State()), "O:", [""])
    {
      r := WriteEntry(OpenValve, [""]);
    }

    method Close() returns (r: Result<()>)
      modifies transport
      ensures (r, transport.State()) == WriteOn(old(transport.State()), "C:", [""])
    {
      r := WriteEntry(CloseValve, [""]);
    }

    method Hold() returns (r: Result<()>)
      modifies transport
      ensures (r, transport.State()) == WriteOn(old(transport.State()), "H:", [""])
    {
      r := WriteEntry(HoldValve, [""]);
    }

    method ZeroAdjust() returns (r: Result<()>)
      modifies transport
      ensures (r, transport.State()) == WriteOn(old(transport.State()), "Z:", [""])
    {
      r := WriteEntry(ZeroAdjustValve, [""]);
    }

    method InterlockKeys() returns (r: Result<()>)
      modifies transport
      ensures (r, transport.State()) == WriteOn(old(transport.State()), "U:", ["03"])
    {
      r := WriteEntry(Interlock, [InterlockCode]);
    }

    method ReleaseKeys() returns (r: Result<()>)
      modifies transport
      ensures (r, transport.State()) == WriteOn(old(transport.State()), "U:", ["04"])
    {
      r := WriteEntry(Interlock, [ReleaseCode]);
    }

    /** A rejected value raises before the transport is touched. */
    method SetValvePosition(position: PyValue) returns (r: Result<()>)
      modifies transport
      ensures SetpointPayload(position).Err? ==>
        r == Err(SetpointPayload(position).error) && transport.State() == old(transport.State())
      ensures SetpointPayload(position).Ok? ==>
        (r, transport.State()) == WriteOn(old(transport.State()), "R:", [SetpointPayload(position).value])
    {
      var payload := SetpointPayload(position);
      if payload.Err? {
        return Err(payload.error);
      }
      r := WriteEntry(ValvePosition, [payload.value]);
    }

    /** Same guard and padding as the position, under `V:`. */
    method SetSpeed(speed: PyValue) returns (r: Result<()>)
      modifies transport
      ensures SetpointPayload(speed).Err? ==>
        r == Err(SetpointPayload(speed).error) && transport.State() == old(transport.State())
      ensures SetpointPayload(speed).Ok? ==>
        (r, transport.State()) == WriteOn(old(transport.State()), "V:", [SetpointPayload(speed).value])
    {
      var payload := SetpointPayload(speed);
      if payload.Err? {
        return Err(payload.error);
      }
      r := WriteEntry(Speed, [payload.value]);
    }

    method GetValvePosition() returns (r: Result<int>)
      modifies transport
      ensures (r, transport.State()) == GetValvePositionOn(old(transport.State()))
    {
      var s := QueryEntry(ValvePosition);
      r := if s.Err? then Err(s.error) else ParseInt(s.value);
    }

    /** The position as a percentage, over reals. */
    method GetOpen() returns (r: Result<real>)
      modifies transport
      ensures transport.State() == GetValvePositionOn(old(transport.State())).1
      ensures var p := GetValvePositionOn(old(transport.State())).0;
        r == if p.Err? then Err(p.error) else Ok(p.value as real / 10.0)
    {
      var p := GetValvePosition();
      r := if p.Err? then Err(p.error) else Ok(p.value as real / 10.0);
    }

    /** As written, this raises `TypeError` and leaves the transport alone. */
    method IsOpen() returns (r: Result<Option<ValveState>>)
      modifies transport
      ensures (r, transport.State()) == IsOpenOn(old(transport.State()))
      ensures r == Err(TypeError("Can only query on Command")) && transport.State() == old(transport.State())
    {
      var s := QueryEntry(ValveIsOpen);
      r := ClassifyReply(s);
      IsOpenRaises(old(transport.State()));
    }

    method GetSoftwareVersion() returns (r: Result<string>)
      modifies transport
      ensures (r, transport.State()) == QueryEntryOn(old(transport.State()), SoftwareVersion)
    {
      r := QueryEntry(SoftwareVersion);
    }
  }
}
