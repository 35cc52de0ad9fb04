/** The serial transport the protocol talks to. Its implementation lives in
    an external library; here it is a stub with an observable state: the
    bytes the device has sent and nobody has read yet, the log of every byte
    written, and whether the link refuses writes. */
module SlaveTransport {
  import opened Errors
  import opened Ascii

  /** The state of one transport, as a value. */
  datatype Link = Link(incoming: seq<byte>, outgoing: seq<byte>, writeFails: bool)

  predicate EndsAt(s: seq<byte>, delim: seq<byte>, k: nat)
    requires |delim| <= k <= |s|
  {
    s[k - |delim|..k] == delim
  }

  /** The first end position `k >= from` of an occurrence of `delim` in `s`. */
  function SearchFrom(s: seq<byte>, delim: seq<byte>, from: nat): (r: Option<nat>)
    requires |delim| <= from
    ensures r.Some? ==> from <= r.value <= |s| && EndsAt(s, delim, r.value)
    ensures forall k :: from <= k <= |s| && (r.None? || k < r.value) ==> !EndsAt(s, delim, k)
    decreases |s| - from
  {
    if from > |s| then None
    else if EndsAt(s, delim, from) then Some(from)
    else SearchFrom(s, delim, from + 1)
  }

  /** Length of the shortest prefix of `s` that ends with `delim`, if any. */
  function DelimiterEnd(s: seq<byte>, delim: seq<byte>): Option<nat> {
    SearchFrom(s, delim, |delim|)
  }

  /** `transport.write(data)`: appends to the log unless the link refuses. */
  function TransportWrite(l: Link, data: seq<byte>): (bool, Link) {
    if l.writeFails then (false, l) else (true, l.(outgoing := l.outgoing + data))
  }

  /** `transport.read_until(delim)`: the waiting bytes up to and including
      the first `delim`; a timeout (`None`) when no `delim` has arrived, and
      then nothing is consumed. */
  function TransportReadUntil(l: Link, delim: seq<byte>): (Option<seq<byte>>, Link) {
    match DelimiterEnd(l.incoming, delim)
    case Some(k) => (Some(l.incoming[..k]), l.(incoming := l.incoming[k..]))
    case None => (None, l)
  }

  /** `transport.read_bytes(n)`: exactly `n` waiting bytes, or a timeout
      when fewer have arrived; the serial read that timed out has already
      taken those few bytes off the line, so they are gone. */
  function TransportReadBytes(l: Link, n: nat): (Option<seq<byte>>, Link) {
    if n <= |l.incoming| then (Some(l.incoming[..n]), l.(incoming := l.incoming[n..]))
    else (None, l.(incoming := []))
  }

  class Transport {
    var incoming: seq<byte>
    var outgoing: seq<byte>
    var writeFails: bool

    function State(): Link
      reads this
    {
      Link(incoming, outgoing, writeFails)
    }

    constructor (incoming: seq<byte>, writeFails: bool)
      ensures State() == Link(incoming, [], writeFails)
    {
      this.incoming := incoming;
      this.outgoing := [];
      this.writeFails := writeFails;
    }

    /** Returns false where the library raises. */
    method Write(data: seq<byte>) returns (ok: bool)
      modifies this
      ensures (ok, State()) == TransportWrite(old(State()), data)
    {
      ok := !writeFails;
      if ok {
        outgoing := outgoing + data;
      }
    }

    /** Returns None where the library raises `Timeout`. */
    method ReadUntil(delim: seq<byte>) returns (r: Option<seq<byte>>)
      modifies this
      ensures (r, State()) == TransportReadUntil(old(State()), delim)
    {
      var end := DelimiterEnd(incoming, delim);
      if end.Some? {
        r := Some(incoming[..end.value]);
        incoming := incoming[end.value..];
      } else {
        r := None;
      }
    }

    /** Returns None where the library raises `Timeout`. */
    method ReadBytes(n: nat) returns (r: Option<seq<byte>>)
      modifies this
      ensures (r, State()) == TransportReadBytes(old(State()), n)
    {
      if n <= |incoming| {
        r := Some(incoming[..n]);
        incoming := incoming[n..];
      } else {
        r := None;
        incoming := [];
      }
    }
  }
}
